/**
 * One application card of the store front-end (AppCard).
 *
 * A card has two flags: whether its application is installed and whether the
 * mouse is over it. The installed flag chooses the action button's label and the
 * single intent its click announces (start an installed application, install
 * otherwise); the two flags together choose the card's colours.
 *
 * The button's signal connections are modelled as the sequence of intents its
 * click emits, in connection order; the style sheet as the four colours it fills in.
 */
module Card {

  /** The intents a card announces: `installClicked`, `uninstallClicked`, `startClicked`. */
  datatype Intent = Install | Uninstall | Start

  /** The colours substituted into the card's style sheet. */
  datatype Colours = Colours(background: string, border: string, button: string, buttonHover: string)

  const InstallLabel := "安装"
  const StartLabel := "启动"
  const DefaultName := "应用名称"
  const DefaultDescription := "应用描述"

  /** The action button's label for an install state. */
  function ActionLabel(installed: bool): string
  {
    if installed then StartLabel else InstallLabel
  }

  /** The intent the action button is connected to for an install state. */
  function ActionIntent(installed: bool): Intent
  {
    if installed then Start else Install
  }

  /** `updateStyle`'s colour choice: the background and border follow the hover flag,
      the button colours follow the installed flag. */
  function StyleFor(installed: bool, hovered: bool): Colours
  {
    Colours(if hovered then "#f5f5f5" else "#ffffff",
            if hovered then "#e0e0e0" else "#f0f0f0",
            if installed then "#28a745" else "#007AFF",
            if installed then "#218838" else "#0056b3")
  }

  /** Both flags can be read back from the colours: the style tells hover from rest
      and installed from not installed. */
  lemma StyleDeterminesFlags(i1: bool, h1: bool, i2: bool, h2: bool)
    ensures StyleFor(i1, h1) == StyleFor(i2, h2) <==> i1 == i2 && h1 == h2
    ensures StyleFor(i1, h1).background == StyleFor(i2, h2).background <==> h1 == h2
    ensures StyleFor(i1, h1).button == StyleFor(i2, h2).button <==> i1 == i2
  {
    assert "#f5f5f5"[2] != "#ffffff"[2];
    assert "#28a745"[1] != "#007AFF"[1];
  }

  /** The two install states have different labels and different intents, and neither
      is `Uninstall`. */
  lemma ActionDistinguishesStates(installed: bool)
    ensures ActionIntent(installed) != Uninstall
    ensures ActionIntent(installed) != ActionIntent(!installed)
    ensures ActionLabel(installed) != ActionLabel(!installed)
  {
    assert InstallLabel[0] != StartLabel[0];
  }

  /** The card (AppCard). */
  class AppCard {
    var name: string
    var description: string
    var installed: bool
    var hovered: bool
    /** The action button's text. */
    var actionText: string
    /** The intents the action button's click emits, one per connection. */
    var binding: seq<Intent>
    /** The colours of the current style sheet. */
    var style: Colours

    /** The label follows the install state, the button triggers at most one intent,
        the one for the install state, and the colours follow the flags. */
    ghost predicate Valid()
      reads this
    {
      actionText == ActionLabel(installed) &&
      (binding == [] || binding == [ActionIntent(installed)]) &&
      style == StyleFor(installed, hovered)
    }

    /** A fresh card: not installed, not hovered, labelled "install". Its action button
        is not connected to anything until `setInstalled` is called. */
    constructor ()
      ensures Valid()
      ensures !installed && !hovered && actionText == InstallLabel && binding == []
      ensures name == DefaultName && description == DefaultDescription
    {
      installed, hovered := false, false;
      name, description, actionText := DefaultName, DefaultDescription, InstallLabel;
      binding := [];
      style := StyleFor(false, false);
    }

    /** `updateStyle`. */
    method UpdateStyle()
      modifies this`style
      ensures style == StyleFor(installed, hovered)
    {
      style := StyleFor(installed, hovered);
    }

    method SetAppName(n: string)
      requires Valid()
      modifies this`name
      ensures Valid() && name == n
    {
      name := n;
    }

    method SetAppDescription(d: string)
      requires Valid()
      modifies this`description
      ensures Valid() && description == d
    {
      description := d;
    }

    /** `setInstalled`: store the flag, relabel the button, drop every connection of
        its click and connect exactly the intent for the new state. */
    method SetInstalled(b: bool)
      requires Valid()
      modifies this`installed, this`actionText, this`binding, this`style
      ensures Valid()
      ensures installed == b && hovered == old(hovered)
      ensures actionText == ActionLabel(b) && binding == [ActionIntent(b)]
    {
      installed := b;
      actionText := ActionLabel(b);
      binding := [];
      binding := binding + [ActionIntent(b)];
      UpdateStyle();
    }

    /** `enterEvent`: the mouse is over the card. */
    method EnterEvent()
      requires Valid()
      modifies this`hovered, this`style
      ensures Valid() && hovered && installed == old(installed)
    {
      hovered := true;
      UpdateStyle();
    }

    /** `leaveEvent`: the mouse has left the card. */
    method LeaveEvent()
      requires Valid()
      modifies this`hovered, this`style
      ensures Valid() && !hovered && installed == old(installed)
    {
      hovered := false;
      UpdateStyle();
    }

    /** A click on the action button: every connected intent is emitted, in order. */
    method ClickAction() returns (emitted: seq<Intent>)
      requires Valid()
      ensures emitted == binding
      ensures Uninstall !in emitted
      ensures |emitted| <= 1
      ensures forall e :: e in emitted ==> e == ActionIntent(installed)
    {
      emitted := binding;
    }
  }
}
