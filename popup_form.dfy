/**
 * The welcome pop-up that asks a visitor for a name and a phone number: the phone
 * input keeps only the first ten digits typed, submission checks the name before the
 * phone, and a successful submission records the visitor as registered for the rest
 * of the browser session, so the pop-up is not offered again.
 */
module PopupForm {
  import opened Wrappers
  import opened Text

  const NameMessage := "Please enter your name"
  const PhoneMessage := "Please enter a valid 10-digit phone number"
  /** The thank-you text, character for character as the component writes it: its
      apostrophe is the UTF-8 encoding of U+2019 read back as Windows-1252. */
  const SuccessMessage := "Thank you! We" + Mojibake + "ll contact you soon."
  const Mojibake := "\U{00E2}\U{20AC}\U{2122}"

  /** What stops a submission. */
  datatype Fault = NameMissing | PhoneInvalid

  function FaultMessage(f: Fault): string {
    match f
    case NameMissing => NameMessage
    case PhoneInvalid => PhoneMessage
  }

  /** The two guards of `handleSubmit`, in order: the name fault when the trimmed name
      is empty (whatever the phone), else the phone fault when the phone is not ten
      characters long, else nothing. */
  function SubmitError(name: string, phone: string): (r: Option<Fault>)
    ensures r == Some(NameMissing) <==> Trim(name) == []
    ensures r == Some(PhoneInvalid) <==> Trim(name) != [] && |phone| != PhoneLength
    ensures r.None? <==> Trim(name) != [] && |phone| == PhoneLength
  {
    TrimEmptyIffAllSpace(name);
    if AllSpace(name) then Some(NameMissing)
    else if phone == [] || |phone| != PhoneLength then Some(PhoneInvalid)
    else None
  }

  /** Through the phone input's sanitiser, a submission with a name gets past both
      guards exactly when at least ten digits were typed. */
  lemma SanitizedPhoneAccepted(name: string, input: string)
    ensures SubmitError(name, SanitizePhone(input)).None?
      <==> Trim(name) != [] && |KeepDigits(input)| >= PhoneLength
  {
  }

  /** The pop-up's state; `registered` is the session-storage flag. */
  class Popup {
    var showPopup: bool
    var successPopup: bool
    var name: string
    var phone: string
    var error: string
    var successMessage: string
    var registered: bool

    /** The phone field only ever holds what the sanitiser lets through, and the
        thank-you pop-up only shows once the visitor is registered. */
    predicate Valid()
      reads this
    {
      AllDigits(phone) && |phone| <= PhoneLength && (successPopup ==> registered)
    }

    /** A fresh pop-up in a session that may already be registered. */
    constructor (registered: bool)
      ensures Valid()
      ensures !showPopup && !successPopup && name == "" && phone == "" && error == "" && successMessage == ""
      ensures this.registered == registered
    {
      showPopup := false;
      successPopup := false;
      name := "";
      phone := "";
      error := "";
      successMessage := "";
      this.registered := registered;
    }

    /** The effect run on each route change, once its timer has fired: the pop-up is
        offered exactly when the session is not registered. */
    method OnRouteChange()
      requires Valid()
      modifies this
      ensures Valid()
      ensures showPopup == !registered
      ensures successPopup == old(successPopup) && name == old(name) && phone == old(phone)
      ensures error == old(error) && successMessage == old(successMessage) && registered == old(registered)
    {
      showPopup := !registered;
    }

    method OnNameInput(value: string)
      requires Valid()
      modifies this
      ensures Valid()
      ensures name == value
      ensures showPopup == old(showPopup) && successPopup == old(successPopup) && phone == old(phone)
      ensures error == old(error) && successMessage == old(successMessage) && registered == old(registered)
    {
      name := value;
    }

    /** The phone input's change handler: the field becomes the sanitised value. */
    method OnPhoneInput(value: string)
      requires Valid()
      modifies this
      ensures Valid()
      ensures phone == SanitizePhone(value)
      ensures showPopup == old(showPopup) && successPopup == old(successPopup) && name == old(name)
      ensures error == old(error) && successMessage == old(successMessage) && registered == old(registered)
    {
      phone := SanitizePhone(value);
    }

    /** `handleSubmit`: a failing guard only shows its message; passing both sets the
        registered flag, clears the error and shows the thank-you pop-up, and then the
        phone on record is ten digits. */
    method HandleSubmit()
      requires Valid()
      modifies this
      ensures Valid()
      ensures name == old(name) && phone == old(phone) && showPopup == old(showPopup)
      ensures SubmitError(old(name), old(phone)).Some? ==>
        && error == FaultMessage(SubmitError(old(name), old(phone)).value)
        && registered == old(registered) && successPopup == old(successPopup)
        && successMessage == old(successMessage)
      ensures SubmitError(old(name), old(phone)).None? ==>
        && error == "" && registered && successPopup && successMessage == SuccessMessage
        && |phone| == PhoneLength && AllDigits(phone)
    {
      // `!name.trim()`: the name trims to nothing exactly when it is all white space
      if AllSpace(name) {
        error := NameMessage;
        return;
      }
      if phone == [] || |phone| != PhoneLength {
        error := PhoneMessage;
        return;
      }
      registered := true;
      error := "";
      successMessage := SuccessMessage;
      successPopup := true;
    }

    /** The timer that follows a successful submission: both pop-ups close and the
        fields are emptied; the registration stays. */
    method AfterSuccess()
      requires Valid()
      modifies this
      ensures Valid()
      ensures !successPopup && !showPopup && name == "" && phone == ""
      ensures error == old(error) && successMessage == old(successMessage) && registered == old(registered)
    {
      successPopup := false;
      showPopup := false;
      name := "";
      phone := "";
    }

    /** Dismissing the pop-up (its close button or the backdrop). */
    method Close()
      requires Valid()
      modifies this
      ensures Valid()
      ensures !showPopup
      ensures successPopup == old(successPopup) && name == old(name) && phone == old(phone)
      ensures error == old(error) && successMessage == old(successMessage) && registered == old(registered)
    {
      showPopup := false;
    }
  }

  /** Once registered, a later route change never offers the pop-up again. */
  method RegisteredStaysHidden(popup: Popup)
    requires popup.Valid() && popup.registered
    modifies popup
    ensures popup.Valid() && !popup.showPopup && popup.registered
  {
    popup.OnRouteChange();
  }
}
