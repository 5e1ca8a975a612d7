/**
 * The login page: the form's input handlers, the document-type picker whose
 * values are its labels, and the ordered checks of `onLogin`.
 */
module Login {
  import opened Strings
  import opened IdCard
  import opened Wrappers

  datatype LoginForm = LoginForm(name: string, idType: string, idNumber: string)

  datatype IdTypeOption = IdTypeOption(labelText: string, value: string)

  const IdTypeOptions: seq<IdTypeOption> := [
    IdTypeOption("身份证", "身份证"),
    IdTypeOption("护照", "护照"),
    IdTypeOption("军官证", "军官证"),
    IdTypeOption("港澳通行证", "港澳通行证"),
    IdTypeOption("台胞证", "台胞证")
  ]

  /** What is written to storage on success (the login time comes from the clock and is left out). */
  datatype StoredUser = StoredUser(name: string, idType: string, idNumber: string)

  datatype LoginOutcome =
    | NameMissing | IdTypeMissing | IdNumberMissing | IdCardMalformed
    | LoggedIn(user: StoredUser)

  /** The checks of `onLogin`, first failure first; the ID-card pattern sees the untrimmed number. */
  function LoginCheck(f: LoginForm): (r: LoginOutcome)
    ensures r.LoggedIn? ==> !IsBlank(f.name) && f.idType != "" && !IsBlank(f.idNumber)
    ensures r.LoggedIn? && f.idType == "身份证" ==> Trim(f.idNumber) == f.idNumber
  {
    if IsBlank(f.name) then NameMissing
    else if f.idType == "" then IdTypeMissing
    else if IsBlank(f.idNumber) then IdNumberMissing
    else if f.idType == "身份证" && !ValidateIdCard(f.idNumber) then IdCardMalformed
    else if f.idType == "身份证" then
      AcceptedIsTrimmed(f.idNumber);
      LoggedIn(StoredUser(f.name, f.idType, f.idNumber))
    else LoggedIn(StoredUser(f.name, f.idType, f.idNumber))
  }

  /** Each outcome happens exactly when the earlier checks passed and its own failed. */
  lemma LoginOrder(f: LoginForm)
    ensures LoginCheck(f) == NameMissing <==> IsBlank(f.name)
    ensures LoginCheck(f) == IdTypeMissing <==> !IsBlank(f.name) && f.idType == ""
    ensures LoginCheck(f) == IdNumberMissing <==>
              !IsBlank(f.name) && f.idType != "" && IsBlank(f.idNumber)
    ensures LoginCheck(f) == IdCardMalformed <==>
              !IsBlank(f.name) && f.idType == "身份证" && !IsBlank(f.idNumber) && !ValidateIdCard(f.idNumber)
    ensures LoginCheck(f).LoggedIn? <==>
              !IsBlank(f.name) && f.idType != "" && !IsBlank(f.idNumber)
              && (f.idType == "身份证" ==> ValidateIdCard(f.idNumber))
    ensures LoginCheck(f).LoggedIn? ==> LoginCheck(f).user == StoredUser(f.name, f.idType, f.idNumber)
  {
  }

  /**
   * The emptiness check trims but the pattern does not: an ID-card number
   * with whitespace at either end passes the first and fails the second.
   */
  lemma SurroundingSpaceRejected(f: LoginForm)
    requires !IsBlank(f.name) && f.idType == "身份证" && !IsBlank(f.idNumber)
    requires IsWhitespace(f.idNumber[0]) || IsWhitespace(f.idNumber[|f.idNumber| - 1])
    ensures LoginCheck(f) == IdCardMalformed
  {
    if ValidateIdCard(f.idNumber) {
      IdCardExactly(f.idNumber);
    }
  }

  /** Every 17 digits followed by `X` or `x` is an accepted card number. */
  lemma CheckCharAlternative(d: string, c: char)
    requires DigitsExactly(d, 17) && (c == 'X' || c == 'x')
    ensures ValidateIdCard(d + [c])
  {
    assert (d + [c])[..17] == d;
  }

  /**
   * Any accepted card number typed with a leading space: the order-confirm
   * page's trimmed check would take it, login refuses it.
   */
  lemma LeadingSpaceRejected(name: string, n: string)
    requires !IsBlank(name) && ValidateIdCard(n)
    ensures ValidateIdCard(Trim([' '] + n))
    ensures LoginCheck(LoginForm(name, "身份证", [' '] + n)) == IdCardMalformed
  {
    AcceptedIsTrimmed(n);
    TrimDropsLeadingWhitespace(' ', n);
    var m := [' '] + n;
    assert !IsBlank(m) by {
      IdCardExactly(n);
      assert m[1] == n[0];
    }
    SurroundingSpaceRejected(LoginForm(name, "身份证", m));
  }

  /** Other document types have no format rule here: any non-blank number logs in. */
  lemma OtherTypesNeedOnlyNonBlank(f: LoginForm)
    requires !IsBlank(f.name) && f.idType != "" && f.idType != "身份证"
    ensures LoginCheck(f).LoggedIn? <==> !IsBlank(f.idNumber)
  {
  }

  /** Every picker option stores its own label. */
  lemma OptionValuesAreLabels()
    ensures forall i :: 0 <= i < |IdTypeOptions| ==> IdTypeOptions[i].value == IdTypeOptions[i].labelText
  {
  }

  class LoginPage {
    var formData: LoginForm

    constructor ()
      ensures formData == LoginForm("", "", "")
    {
      formData := LoginForm("", "", "");
    }

    /** `onNameInput` */
    method OnNameInput(value: string)
      modifies this
      ensures formData == old(formData).(name := value)
    {
      formData := formData.(name := value);
    }

    /** `onIdNumberInput` */
    method OnIdNumberInput(value: string)
      modifies this
      ensures formData == old(formData).(idNumber := value)
    {
      formData := formData.(idNumber := value);
    }

    /** `onIdTypeSelect`: the tapped option's value; a cancelled sheet (`None`) changes nothing. */
    method OnIdTypeSelect(tapIndex: Option<nat>)
      requires tapIndex.Some? ==> tapIndex.value < |IdTypeOptions|
      modifies this
      ensures tapIndex.Some? ==> formData == old(formData).(idType := IdTypeOptions[tapIndex.value].labelText)
      ensures tapIndex.None? ==> formData == old(formData)
    {
      if tapIndex.Some? {
        var selected := IdTypeOptions[tapIndex.value];
        formData := formData.(idType := selected.value);
      }
    }

    /** `onLogin`'s checks, each returning at its own toast; success stores the form as typed. */
    method OnLogin() returns (r: LoginOutcome)
      ensures r == LoginCheck(formData)
      ensures r.LoggedIn? ==> r.user.idNumber == formData.idNumber && r.user.name == formData.name
    {
      var name, idType, idNumber := formData.name, formData.idType, formData.idNumber;
      if Trim(name) == "" {
        return NameMissing;
      }
      if idType == "" {
        return IdTypeMissing;
      }
      if Trim(idNumber) == "" {
        return IdNumberMissing;
      }
      if idType == "身份证" && !ValidateIdCard(idNumber) {
        return IdCardMalformed;
      }
      return LoggedIn(StoredUser(name, idType, idNumber));
    }
  }
}
