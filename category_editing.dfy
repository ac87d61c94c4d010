/**
 The edit-category modal: draft icon and colour seeded from the selected
 category and reseeded whenever a new category is selected, an emoji pick
 that replaces the draft icon, and a Save that sends the category with the
 drafts applied and toggles the modal's visibility without waiting for the
 answer.
 */
module CategoryEditing {
  import opened Domain

  /** The body the modal submits: `category` with its icon and colour
      replaced by the drafts and every other field copied. */
  function WithDraft(category: Category, icon: Option<string>, color: string): (body: Category)
    ensures body.icon == icon && body.color == color
    ensures body.id == category.id && body.name == category.name
    ensures body.expenses == category.expenses
  {
    category.(icon := icon, color := color)
  }

  /** The body equals the category exactly when the drafts are the
      category's own icon and colour. */
  lemma WithDraftUnchangedIff(category: Category, icon: Option<string>, color: string)
    ensures WithDraft(category, icon, color) == category <==> (icon == category.icon && color == category.color)
  {
  }

  /** The modal with the state it reads and writes. `category`, `userId`
      and `visible` are inputs from the categories screen; `visible` and
      `user` are that screen's state, which the modal flips and replaces
      through the setters it is handed. */
  class EditCategoryModal {
    var category: Category
    var userId: string
    var visible: bool
    var user: User
    var chosenIcon: Option<string>
    var chosenColor: string
    var emojiPickerOpen: bool
    var colorPickerVisible: bool
    var error: string

    /** The drafts are the selected category's persisted icon and colour. */
    predicate DraftsSeeded()
      reads this
    {
      chosenIcon == category.icon && chosenColor == category.color
    }

    /** The body a submit would send now. */
    function Body(): (body: Category)
      reads this
      ensures body.icon == chosenIcon && body.color == chosenColor
      ensures body.id == category.id && body.name == category.name && body.expenses == category.expenses
      ensures body == category <==> DraftsSeeded()
    {
      WithDraftUnchangedIff(category, chosenIcon, chosenColor);
      WithDraft(category, chosenIcon, chosenColor)
    }

    constructor (selected: Category, uid: string, shown: bool, current: User)
      ensures category == selected && userId == uid && visible == shown && user == current
      ensures DraftsSeeded()
      ensures !emojiPickerOpen && !colorPickerVisible && error == ""
    {
      category := selected;
      userId := uid;
      visible := shown;
      user := current;
      chosenIcon := selected.icon;
      chosenColor := selected.color;
      emojiPickerOpen := false;
      colorPickerVisible := false;
      error := "";
    }

    /** The screen hands the modal a different category object: the effect
        keyed on it resets both drafts, discarding unsaved edits. */
    method ReceiveCategory(selected: Category)
      modifies this`category, this`chosenIcon, this`chosenColor
      ensures category == selected && DraftsSeeded()
    {
      category := selected;
      chosenIcon := selected.icon;
      chosenColor := selected.color;
    }

    /** An emoji picked in the emoji keyboard becomes the draft icon. */
    method HandleEmojiPick(emoji: string)
      modifies this`chosenIcon
      ensures chosenIcon == Some(emoji)
    {
      chosenIcon := Some(emoji);
    }

    /** "Add icon" and the keyboard's close both flip the keyboard open. */
    method ToggleEmojiPicker()
      modifies this`emojiPickerOpen
      ensures emojiPickerOpen == !old(emojiPickerOpen)
    {
      emojiPickerOpen := !emojiPickerOpen;
    }

    /** "Set color" shows the colour picker. */
    method OpenColorPicker()
      modifies this`colorPickerVisible
      ensures colorPickerVisible
    {
      colorPickerVisible := true;
    }

    /** The colour picker shows or hides itself through the visibility
        setter it is handed. */
    method SetColorPickerVisible(shown: bool)
      modifies this`colorPickerVisible
      ensures colorPickerVisible == shown
    {
      colorPickerVisible := shown;
    }

    /** The colour picker reports a colour through the setter it is handed. */
    method PickColor(color: string)
      modifies this`chosenColor
      ensures chosenColor == color
    {
      chosenColor := color;
    }

    /** The submit handler. `reply` is what the remote `changeCategory` call
        resolves to; `request` is the call it makes. The drafts are kept
        whatever the outcome. */
    method HandleFormSubmit(reply: Reply) returns (request: ChangeRequest)
      modifies this`user, this`error
      ensures request == ChangeRequest(userId, WithDraft(category, chosenIcon, chosenColor))
      ensures reply.Success? ==> user == reply.user && error == old(error)
      ensures reply.Failure? ==> user == old(user)
      ensures reply.Failure? ==>
        error == (if reply.thrown.ErrorObject? then reply.thrown.message else old(error))
    {
      request := ChangeRequest(userId, Body());
      match reply
      case Success(updated) =>
        user := updated;
      case Failure(thrown) =>
        if thrown.ErrorObject? {
          error := thrown.message;
        }
    }

    /** Save: submit, and flip the modal's visibility in the same handler,
        whatever the reply turns out to be. */
    method Save(reply: Reply) returns (request: ChangeRequest)
      modifies this`user, this`error, this`visible
      ensures request == ChangeRequest(userId, WithDraft(category, chosenIcon, chosenColor))
      ensures visible == !old(visible)
      ensures reply.Success? ==> user == reply.user && error == old(error)
      ensures reply.Failure? ==> user == old(user)
      ensures reply.Failure? ==>
        error == (if reply.thrown.ErrorObject? then reply.thrown.message else old(error))
    {
      request := HandleFormSubmit(reply);
      visible := !visible;
    }

    /** Close (and the system back gesture): flip the visibility only. */
    method Close()
      modifies this`visible
      ensures visible == !old(visible)
    {
      visible := !visible;
    }
  }

  /** Selecting category `a`, editing its icon and colour, then selecting
      `b` leaves `b`'s persisted icon and colour as the drafts, so saving at
      once sends `b` unchanged. */
  method ReselectDiscardsEdits(a: Category, b: Category, emoji: string, color: string, current: User)
    returns (icon: Option<string>, chosen: string, sent: Category)
    ensures icon == b.icon && chosen == b.color
    ensures sent == b
  {
    var modal := new EditCategoryModal(a, current.id, true, current);
    modal.HandleEmojiPick(emoji);
    modal.PickColor(color);
    modal.ReceiveCategory(b);
    icon, chosen := modal.chosenIcon, modal.chosenColor;
    sent := modal.Body();
  }
}
