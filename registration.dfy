/**
 * The responder sign-up form (`components/ResponderRegistration.tsx`): the
 * field validator, the submit gate that stores a profile only for a valid
 * form, and the change handler that clears the edited field's error.
 */
module Registration {
  import opened Common
  import opened JsText
  import Db

  const NameRequired: string := "Name is required"
  const PhoneRequired: string := "Phone number is required"
  const PhoneInvalid: string := "Please enter a valid phone number"
  const EmailInvalid: string := "Please enter a valid email address"
  const NicInvalid: string := "Please enter a valid NIC"

  /** `/[\s-]/`: the characters stripped from a phone number before it is checked. */
  predicate IsPhoneSeparator(c: char) {
    IsSpace(c) || c == '-'
  }

  /** `phone.replace(/[\s-]/g, "")`. */
  function StripPhone(s: string): (r: string)
    ensures |r| <= |s|
    ensures forall i :: 0 <= i < |r| ==> !IsPhoneSeparator(r[i])
  {
    if s == [] then []
    else if IsPhoneSeparator(s[|s| - 1]) then StripPhone(s[..|s| - 1])
    else StripPhone(s[..|s| - 1]) + [s[|s| - 1]]
  }

  /** Stripping works piece by piece. */
  lemma {:induction false} StripPhoneConcat(a: string, b: string)
    ensures StripPhone(a + b) == StripPhone(a) + StripPhone(b)
  {
    if b != [] {
      assert (a + b)[..|a + b| - 1] == a + b[..|b| - 1];
      StripPhoneConcat(a, b[..|b| - 1]);
    } else {
      assert a + b == a;
    }
  }

  predicate AllDigits(s: string) {
    forall i :: 0 <= i < |s| ==> IsDigit(s[i])
  }

  /** `/^\+?[0-9]{10,15}$/`: an optional plus sign, then ten to fifteen digits. */
  predicate MatchesPhone(s: string) {
    var digits := if s != [] && s[0] == '+' then s[1..] else s;
    10 <= |digits| <= 15 && AllDigits(digits)
  }

  /** Neither white space nor '@': the class `[^\s@]`. */
  predicate IsAddressChar(c: char) {
    !IsSpace(c) && c != '@'
  }

  predicate AllAddressChars(s: string) {
    forall i :: 0 <= i < |s| ==> IsAddressChar(s[i])
  }

  /**
   * `/^[^\s@]+@[^\s@]+\.[^\s@]+$/`: a non-empty local part and a domain, both
   * free of white space and '@', split by the only '@'; the domain holds a
   * dot with at least one character on each side.
   */
  predicate MatchesEmail(s: string) {
    exists k | 0 < k < |s| ::
      && s[k] == '@'
      && AllAddressChars(s[..k])
      && AllAddressChars(s[k + 1..])
      && exists j | k + 1 < j < |s| - 1 :: s[j] == '.'
  }

  function NameError(name: string): (r: Option<string>)
    ensures r.Some? <==> Trim(name) == ""
    ensures r.Some? ==> r.value == NameRequired
  {
    if Trim(name) == "" then Some(NameRequired) else None
  }

  /** A blank phone is missing; otherwise, once stripped of separators, it must match the pattern. */
  function PhoneError(phone: string): (r: Option<string>)
    ensures r.Some? <==> Trim(phone) == "" || !MatchesPhone(StripPhone(phone))
    ensures r.Some? ==> r.value == (if Trim(phone) == "" then PhoneRequired else PhoneInvalid)
  {
    if Trim(phone) == "" then Some(PhoneRequired)
    else if !MatchesPhone(StripPhone(phone)) then Some(PhoneInvalid)
    else None
  }

  /** The email is optional, and checked untrimmed when given. */
  function EmailError(email: string): (r: Option<string>)
    ensures r.Some? <==> email != "" && !MatchesEmail(email)
    ensures r.Some? ==> r.value == EmailInvalid
  {
    if email != "" && !MatchesEmail(email) then Some(EmailInvalid) else None
  }

  /** The NIC is optional; when given, its untrimmed length must be at least 5. */
  function NicError(nic: string): (r: Option<string>)
    ensures r.Some? <==> nic != "" && |nic| < 5
    ensures r.Some? ==> r.value == NicInvalid
  {
    if nic != "" && |nic| < 5 then Some(NicInvalid) else None
  }

  function WithError(m: map<string, string>, field: string, error: Option<string>): map<string, string> {
    if error.Some? then m[field := error.value] else m
  }

  /** The errors `validateForm` collects, keyed by field name: one entry per failing field, and no other. */
  function FormErrors(name: string, phone: string, email: string, nic: string): (e: map<string, string>)
    ensures e.Keys <= {"name", "phone", "email", "nic"}
    ensures "name" in e <==> NameError(name).Some?
    ensures "name" in e ==> e["name"] == NameError(name).value
    ensures "phone" in e <==> PhoneError(phone).Some?
    ensures "phone" in e ==> e["phone"] == PhoneError(phone).value
    ensures "email" in e <==> EmailError(email).Some?
    ensures "email" in e ==> e["email"] == EmailError(email).value
    ensures "nic" in e <==> NicError(nic).Some?
    ensures "nic" in e ==> e["nic"] == NicError(nic).value
  {
    var e1 := WithError(map[], "name", NameError(name));
    var e2 := WithError(e1, "phone", PhoneError(phone));
    var e3 := WithError(e2, "email", EmailError(email));
    WithError(e3, "nic", NicError(nic))
  }

  /**
   * Spaces and dashes typed into a phone number never change whether it is
   * accepted (once it is not blank).
   */
  lemma SeparatorsIgnored(a: string, b: string, c: char)
    requires IsPhoneSeparator(c)
    ensures MatchesPhone(StripPhone(a + [c] + b)) == MatchesPhone(StripPhone(a + b))
  {
    StripPhoneConcat(a + [c], b);
    StripPhoneConcat(a, [c]);
    StripPhoneConcat(a, b);
    assert StripPhone([c]) == [];
    assert StripPhone(a) + [] == StripPhone(a);
  }

  /** What the submit handler stores: name and phone trimmed, a blank email or NIC left out. */
  function SubmittedData(name: string, phone: string, email: string, nic: string): (d: Db.ResponderData)
    ensures d.name == Trim(name) && d.phone == Trim(phone)
    ensures d.email.None? <==> Trim(email) == ""
    ensures d.email.Some? ==> d.email.value == Trim(email)
    ensures d.nic.None? <==> Trim(nic) == ""
    ensures d.nic.Some? ==> d.nic.value == Trim(nic)
  {
    Db.ResponderData(
      Trim(name),
      Trim(phone),
      if Trim(email) == "" then None else Some(Trim(email)),
      if Trim(nic) == "" then None else Some(Trim(nic)))
  }

  /** The form's state: the field values and the error messages shown under them. */
  class RegistrationForm {
    var formData: map<string, string>
    var errors: map<string, string>
    var loading: bool

    /** The four fields are always present. */
    ghost predicate Valid()
      reads this
    {
      "name" in formData && "phone" in formData && "email" in formData && "nic" in formData
    }

    function CurrentErrors(): map<string, string>
      reads this
      requires Valid()
    {
      FormErrors(formData["name"], formData["phone"], formData["email"], formData["nic"])
    }

    constructor ()
      ensures Valid() && !loading && errors == map[]
      ensures formData == map["name" := "", "phone" := "", "email" := "", "nic" := ""]
    {
      formData := map["name" := "", "phone" := "", "email" := "", "nic" := ""];
      errors := map[];
      loading := false;
    }

    /** `validateForm`: replaces the shown errors and answers whether there are none. */
    method ValidateForm() returns (ok: bool)
      requires Valid()
      modifies this`errors
      ensures Valid()
      ensures errors == CurrentErrors()
      ensures ok <==> errors == map[]
    {
      errors := CurrentErrors();
      ok := |errors| == 0;
    }

    /**
     * `handleSubmit`: an invalid form stores nothing; a valid one stores the
     * submitted data as a new profile under `freshId`, and registration
     * completes exactly when that store succeeds, making it the current
     * responder. A valid form leaves `loading` false; an invalid one never
     * touches it.
     */
    method HandleSubmit(store: Db.LocalStore, freshId: string, now: string) returns (completed: bool)
      requires Valid() && store.Valid()
      modifies this`errors, this`loading, store
      ensures Valid() && store.Valid()
      ensures errors == CurrentErrors()
      ensures loading == (errors != map[] && old(loading))
      ensures errors != map[] ==>
                !completed && store.responders == old(store.responders) && store.storage == old(store.storage)
      ensures errors == map[] ==>
                completed == (freshId !in old(store.responders))
      ensures completed ==>
                store.responders == old(store.responders)[freshId := Db.ResponderProfile(
                  freshId,
                  Trim(formData["name"]),
                  Trim(formData["phone"]),
                  SubmittedData(formData["name"], formData["phone"], formData["email"], formData["nic"]).email,
                  SubmittedData(formData["name"], formData["phone"], formData["email"], formData["nic"]).nic,
                  now, now)]
      ensures !completed ==> store.responders == old(store.responders)
      ensures completed ==> store.storage == old(store.storage)[Db.ResponderIdKey := freshId]
      ensures !completed ==> store.storage == old(store.storage)
    {
      var ok := ValidateForm();
      if !ok {
        return false;
      }
      loading := true;
      var data := SubmittedData(formData["name"], formData["phone"], formData["email"], formData["nic"]);
      var r := store.SaveResponderProfile(data, freshId, now);
      completed := r.Ok?;
      loading := false;
    }

    /**
     * `handleChange`: records the new value; an error shown for that field
     * is blanked (the key stays, with an empty message); every other error
     * and field is left alone.
     */
    method HandleChange(field: string, value: string)
      requires Valid()
      modifies this`formData, this`errors
      ensures Valid()
      ensures formData == old(formData)[field := value]
      ensures errors.Keys == old(errors).Keys
      ensures forall k :: k in errors && k != field ==> errors[k] == old(errors)[k]
      ensures field in errors ==> errors[field] == ""
    {
      formData := formData[field := value];
      if field in errors && errors[field] != "" {
        errors := errors[field := ""];
      }
    }
  }

  /** A valid form always submits a non-blank name and phone. */
  lemma ValidFormSubmitsNames(name: string, phone: string, email: string, nic: string)
    requires FormErrors(name, phone, email, nic) == map[]
    ensures SubmittedData(name, phone, email, nic).name != ""
    ensures SubmittedData(name, phone, email, nic).phone != ""
    ensures MatchesPhone(StripPhone(phone))
  {
    assert "name" !in FormErrors(name, phone, email, nic);
    assert "phone" !in FormErrors(name, phone, email, nic);
    assert NameError(name).None? && PhoneError(phone).None?;
  }
}
