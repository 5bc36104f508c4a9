/** The theme toggle of script.js (setupTheme): a two-valued preference kept in
    the root element's `data-theme` attribute and mirrored to the storage key
    "aiPartTheme". Strings are kept as strings, because the attribute and the
    stored value may hold anything; only "light" and "dark" are ever written. */
module Theme {
  import opened Wrappers

  /** The two values the page writes and accepts from storage. */
  predicate IsTheme(s: string) {
    s == "light" || s == "dark"
  }

  /** The attribute value after start-up: a stored preference overrides the
      attribute the page was served with, but only when it names a theme. */
  function InitialAttribute(served: Option<string>, saved: Option<string>): (attr: Option<string>)
    ensures saved.Some? && IsTheme(saved.value) ==> attr == saved
    ensures !(saved.Some? && IsTheme(saved.value)) ==> attr == served
  {
    if saved.Some? && IsTheme(saved.value) then saved else served
  }

  /** The mode the page reads from the attribute: a missing (or empty, hence
      falsy) attribute reads as "dark"; any other value is taken as it is. */
  function CurrentMode(attr: Option<string>): (mode: string)
    ensures attr.None? || attr.value == "" ==> mode == "dark"
    ensures attr.Some? && attr.value != "" ==> mode == attr.value
    ensures mode != ""
  {
    if attr.None? || attr.value == "" then "dark" else attr.value
  }

  /** The mode a click switches to: "light" exactly when the current mode is
      "dark", and "dark" for every other value. */
  function NextMode(current: string): (next: string)
    ensures IsTheme(next)
    ensures next == "light" <==> current == "dark"
    ensures IsTheme(current) ==> next != current
  {
    if current == "dark" then "light" else "dark"
  }

  /** The attribute after one click. */
  function ClickAttribute(attr: Option<string>): (attr': Option<string>)
    ensures attr'.Some? && IsTheme(attr'.value)
    ensures CurrentMode(attr') == "light" <==> CurrentMode(attr) == "dark"
  {
    Some(NextMode(CurrentMode(attr)))
  }

  /** Two clicks bring back the mode the page showed, whenever that mode is a
      theme (a missing attribute included, since it reads as "dark"). */
  lemma ToggleTwiceRestoresMode(attr: Option<string>)
    requires IsTheme(CurrentMode(attr))
    ensures CurrentMode(ClickAttribute(ClickAttribute(attr))) == CurrentMode(attr)
  {
  }

  /** Two clicks bring back a theme attribute exactly. */
  lemma ToggleTwiceRestoresAttribute(t: string)
    requires IsTheme(t)
    ensures ClickAttribute(ClickAttribute(Some(t))) == Some(t)
  {
  }

  /** A missing attribute is treated as dark: one click sets it to light. */
  lemma MissingAttributeTogglesToLight()
    ensures ClickAttribute(None) == Some("light")
    ensures ClickAttribute(Some("")) == Some("light")
  {
  }

  /** The page's theme state: the root element's attribute and the stored copy. */
  class ThemeToggle {
    var attribute: Option<string>
    var stored: Option<string>

    /** The mode the label shows. */
    function Mode(): string
      reads this
    {
      CurrentMode(attribute)
    }

    /** Start-up: apply the stored preference only when it is a theme. */
    constructor (served: Option<string>, saved: Option<string>)
      ensures stored == saved
      ensures saved.Some? && IsTheme(saved.value) ==> attribute == saved && Mode() == saved.value
      ensures !(saved.Some? && IsTheme(saved.value)) ==> attribute == served
    {
      stored := saved;
      attribute := InitialAttribute(served, saved);
    }

    /** The click handler: flip the mode, write it to the attribute and to storage. */
    method Click()
      modifies this
      ensures attribute == ClickAttribute(old(attribute))
      ensures stored == attribute
      ensures IsTheme(Mode())
      ensures Mode() == "light" <==> old(Mode()) == "dark"
    {
      var next := NextMode(CurrentMode(attribute));
      attribute := Some(next);
      stored := Some(next);
    }
  }
}
