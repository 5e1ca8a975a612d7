/**
 * The order-confirm page: ID-document validation, the attendee list kept in
 * step with the ticket count and total price, and the guarded, debounced
 * purchase submission with its payload.
 */
module OrderConfirm {
  import opened Wrappers
  import opened Strings
  import opened IdCard
  import Login

  // ---------------------------------------------------------------------
  // ID-document validation
  // ---------------------------------------------------------------------

  /** The label the validators treat as the mainland ID card. */
  const IdCardLabel := "身份证"

  datatype LengthRule = LengthRule(min: nat, max: nat)

  /** Allowed lengths of a trimmed document number, keyed by document label. */
  const LengthRules: map<string, LengthRule> := map[
    "护照" := LengthRule(6, 20),
    "军官证" := LengthRule(6, 18),
    "港澳通行证" := LengthRule(8, 12),
    "台胞证" := LengthRule(8, 12)
  ]

  /** `validateOtherIdNumber`: the trimmed length must lie within the type's rule; unknown types pass. */
  predicate ValidateOtherIdNumber(idType: string, idNumber: string)
    ensures idType !in LengthRules ==> ValidateOtherIdNumber(idType, idNumber)
    ensures ValidateOtherIdNumber(idType, idNumber) && idType in LengthRules ==> 6 <= |Trim(idNumber)| <= 20
  {
    var n := |Trim(idNumber)|;
    idType !in LengthRules || (LengthRules[idType].min <= n <= LengthRules[idType].max)
  }

  /** `validateIdNumber`: non-blank, then the card pattern or the length rule, on the trimmed number. */
  predicate ValidateIdNumber(idType: string, idNumber: string)
    ensures ValidateIdNumber(idType, idNumber) ==> !IsBlank(idNumber)
    ensures ValidateIdNumber(idType, idNumber) && idType == IdCardLabel ==>
              |Trim(idNumber)| == 15 || |Trim(idNumber)| == 18
  {
    var t := Trim(idNumber);
    if t == "" then false
    else if idType == IdCardLabel then ValidateIdCard(t)
    else ValidateOtherIdNumber(idType, t)
  }

  /** `getIdNumberErrorMessage`: the toast shown when validation fails, "" otherwise. */
  function IdNumberErrorMessage(idType: string, idNumber: string): (msg: string)
    ensures msg == "" || msg == "请输入证件号" || msg == "请输入正确的身份证号"
         || (idType in LengthRules && msg == LengthMessage(idType, LengthRules[idType]))
    ensures IsBlank(idNumber) ==> msg == "请输入证件号"
    ensures !IsBlank(idNumber) && idType == IdCardLabel ==>
              (msg == "请输入正确的身份证号" <==> !ValidateIdCard(Trim(idNumber)))
              && (msg == "" <==> ValidateIdCard(Trim(idNumber)))
    ensures !IsBlank(idNumber) && idType != IdCardLabel && idType in LengthRules ==>
              var rule := LengthRules[idType];
              (msg == LengthMessage(idType, rule) <==> !(rule.min <= |Trim(idNumber)| <= rule.max))
              && (msg == "" <==> rule.min <= |Trim(idNumber)| <= rule.max)
    ensures !IsBlank(idNumber) && idType != IdCardLabel && idType !in LengthRules ==> msg == ""
  {
    TrimIdempotent(idNumber);
    var t := Trim(idNumber);
    if t == "" then "请输入证件号"
    else if idType == IdCardLabel then
      (if !ValidateIdCard(t) then "请输入正确的身份证号" else "")
    else if !ValidateOtherIdNumber(idType, t) && idType in LengthRules then
      LengthMessage(idType, LengthRules[idType])
    else ""
  }

  /** `${idType}号码长度为${min}-${max}位` */
  function LengthMessage(idType: string, rule: LengthRule): (msg: string)
    ensures msg != ""
  {
    idType + "号码长度为" + NatToDecimal(rule.min) + "-" + NatToDecimal(rule.max) + "位"
  }

  /** Validation fails exactly when there is an error message to show. */
  lemma ErrorMessageMirrorsValidation(idType: string, idNumber: string)
    ensures !ValidateIdNumber(idType, idNumber) <==> IdNumberErrorMessage(idType, idNumber) != ""
  {
    TrimIdempotent(idNumber);
  }

  /** `validateIdNumber` case by case. */
  lemma ValidateIdNumberCases(idType: string, idNumber: string)
    ensures IsBlank(idNumber) ==> !ValidateIdNumber(idType, idNumber)
    ensures !IsBlank(idNumber) && idType == IdCardLabel
            ==> (ValidateIdNumber(idType, idNumber) <==> ValidateIdCard(Trim(idNumber)))
    ensures !IsBlank(idNumber) && idType != IdCardLabel && idType in LengthRules
            ==> (ValidateIdNumber(idType, idNumber)
                 <==> LengthRules[idType].min <= |Trim(idNumber)| <= LengthRules[idType].max)
    ensures !IsBlank(idNumber) && idType != IdCardLabel && idType !in LengthRules
            ==> ValidateIdNumber(idType, idNumber)
  {
    TrimIdempotent(idNumber);
  }

  /** The page stores these codes in `newAttendee.idType` (the picker's values). */
  const IdTypeValues: seq<string> := ["ID_CARD", "PASSPORT", "GAT_TXZ"]

  /**
   * The validators know labels, the page passes codes: for every code the
   * format check only asks for a non-blank number.
   */
  lemma CodesOnlyNeedNonBlank(code: string, idNumber: string)
    requires code in IdTypeValues
    ensures ValidateIdNumber(code, idNumber) <==> !IsBlank(idNumber)
  {
    assert code !in LengthRules;
  }

  // ---------------------------------------------------------------------
  // Attendees and the purchase payload
  // ---------------------------------------------------------------------

  datatype AttendeeInfo = AttendeeInfo(
    name: string,
    idNumber: string,
    phone: Option<string>,
    idType: Option<string>,
    containsMySelf: Option<bool>)

  /** The `userInfo` storage record as this page reads it; any key may be missing. */
  datatype StoredUserInfo = StoredUserInfo(
    name: Option<string>,
    idNo: Option<string>,
    mobile: Option<string>,
    idType: Option<string>)

  /** `loadUserAttendeeInfo`: the buyer's own entry, with the `||` defaults and `containsMySelf`. */
  function BuyerAttendee(u: StoredUserInfo): AttendeeInfo {
    AttendeeInfo(OrString(u.name, ""), OrString(u.idNo, ""), Some(OrString(u.mobile, "")),
                 Some(OrString(u.idType, "ID_CARD")), Some(true))
  }

  /** The record the login page writes, read through this page's keys: it has no `idNo` and no `mobile`. */
  function FromLoginRecord(u: Login.StoredUser): StoredUserInfo {
    StoredUserInfo(Some(u.name), None, None, Some(u.idType))
  }

  /** One element of `listJsonStr` before serialisation. */
  datatype PurchaseEntry = PurchaseEntry(name: string, idNo: string, idType: string, mobile: string, mySelf: bool)

  function ToPurchaseEntry(a: AttendeeInfo): PurchaseEntry {
    PurchaseEntry(a.name, a.idNumber, OrString(a.idType, "ID_CARD"), OrString(a.phone, ""),
                  a.containsMySelf == Some(true))
  }

  /** `attendeeList.map(...)`: one entry per attendee, in order. */
  function PurchasePayload(list: seq<AttendeeInfo>): (r: seq<PurchaseEntry>)
    ensures |r| == |list|
    ensures forall i :: 0 <= i < |list| ==>
              r[i].name == list[i].name && r[i].idNo == list[i].idNumber
              && r[i].idType == OrString(list[i].idType, "ID_CARD")
              && r[i].mobile == OrString(list[i].phone, "")
              && r[i].mySelf == (list[i].containsMySelf == Some(true))
  {
    if list == [] then [] else [ToPurchaseEntry(list[0])] + PurchasePayload(list[1..])
  }

  /** The buyer's entry goes out as `mySelf`, with empty strings for missing keys and `ID_CARD` for a missing type. */
  lemma BuyerEntry(u: StoredUserInfo)
    ensures PurchasePayload([BuyerAttendee(u)])
         == [PurchaseEntry(OrString(u.name, ""), OrString(u.idNo, ""), OrString(u.idType, "ID_CARD"),
                           OrString(u.mobile, ""), true)]
  {
  }

  /** The payload of a longer list extends the payload of its prefix. */
  lemma {:induction false} PayloadAppend(list: seq<AttendeeInfo>, more: seq<AttendeeInfo>)
    ensures PurchasePayload(list + more) == PurchasePayload(list) + PurchasePayload(more)
  {
    if list != [] {
      assert (list + more)[1..] == list[1..] + more;
      PayloadAppend(list[1..], more);
    }
  }

  /** Where `splice(index, 1)` starts: a negative index counts from the end; both ends clamp. */
  function SpliceStart(len: nat, index: int): (k: nat)
    ensures k <= len
    ensures 0 <= index <= len ==> k == index
  {
    if index < 0 then (if len + index < 0 then 0 else len + index)
    else if index > len then len
    else index
  }

  /** `list.splice(index, 1)` on a copy. */
  function RemoveAt<T>(list: seq<T>, index: int): (r: seq<T>)
    ensures |list| - 1 <= |r| <= |list|
    ensures 0 <= index < |list| ==>
              |r| == |list| - 1
              && (forall i :: 0 <= i < index ==> r[i] == list[i])
              && (forall i :: index <= i < |r| ==> r[i] == list[i + 1])
              && multiset(r) + multiset{list[index]} == multiset(list)
    ensures index >= |list| ==> r == list
    ensures index < 0 && |list| + index >= 0 ==> r == list[..|list| + index] + list[|list| + index + 1..]
    ensures index < 0 && |list| + index < 0 && list != [] ==> r == list[1..]
  {
    var k := SpliceStart(|list|, index);
    if k < |list| then
      assert list == list[..k] + [list[k]] + list[k + 1..];
      list[..k] + list[k + 1..]
    else list
  }

  /** `^1[3-9]\d{9}$`: an 11-digit mainland mobile number. */
  predicate ValidPhone(p: string) {
    |p| == 11 && p[0] == '1' && '3' <= p[1] <= '9' && AllDigits(p[2..])
  }

  /**
   * The form checks of `confirmAddAttendee`, first failure first: name,
   * number and phone filled in, the phone well formed (untrimmed), then the
   * number valid for `idType || "身份证"`.
   */
  function FormError(a: AttendeeInfo): (err: Option<AddOutcome>)
    ensures err.Some? ==> err.value != Added && !err.value.RealNamePending?
    ensures err.Some? && err.value.IdNumberRejected? ==> err.value.message != ""
    ensures err.None? ==> !IsBlank(a.name) && !IsBlank(a.idNumber) && a.phone.Some? && ValidPhone(a.phone.value)
  {
    ErrorMessageMirrorsValidation(OrString(a.idType, IdCardLabel), a.idNumber);
    if IsBlank(a.name) then Some(NameMissing)
    else if IsBlank(a.idNumber) then Some(IdNumberMissing)
    else if a.phone.None? || IsBlank(a.phone.value) then Some(PhoneMissing)
    else if !ValidPhone(a.phone.value) then Some(PhoneMalformed)
    else
      var t := OrString(a.idType, IdCardLabel);
      if !ValidateIdNumber(t, a.idNumber) then Some(IdNumberRejected(IdNumberErrorMessage(t, a.idNumber)))
      else None
  }

  /** Each form error is reported exactly when every earlier check passed and its own failed. */
  lemma FormErrorOrder(a: AttendeeInfo)
    ensures FormError(a) == Some(NameMissing) <==> IsBlank(a.name)
    ensures FormError(a) == Some(IdNumberMissing) <==> !IsBlank(a.name) && IsBlank(a.idNumber)
    ensures FormError(a) == Some(PhoneMissing) <==>
              !IsBlank(a.name) && !IsBlank(a.idNumber) && (a.phone.None? || IsBlank(a.phone.value))
    ensures FormError(a) == Some(PhoneMalformed) <==>
              !IsBlank(a.name) && !IsBlank(a.idNumber) && a.phone.Some? && !IsBlank(a.phone.value)
              && !ValidPhone(a.phone.value)
    ensures FormError(a).Some? && FormError(a).value.IdNumberRejected? <==>
              !IsBlank(a.name) && !IsBlank(a.idNumber) && a.phone.Some? && ValidPhone(a.phone.value)
              && !ValidateIdNumber(OrString(a.idType, IdCardLabel), a.idNumber)
    ensures FormError(a).Some? && FormError(a).value.IdNumberRejected? ==>
              FormError(a).value.message != ""
    ensures FormError(a).None? <==>
              !IsBlank(a.name) && a.phone.Some? && ValidPhone(a.phone.value)
              && ValidateIdNumber(OrString(a.idType, IdCardLabel), a.idNumber)
  {
    var t := OrString(a.idType, IdCardLabel);
    ErrorMessageMirrorsValidation(t, a.idNumber);
    if a.phone.Some? && ValidPhone(a.phone.value) {
      assert !IsBlank(a.phone.value) by { assert !IsWhitespace(a.phone.value[0]); }
    }
    if !IsBlank(a.name) && a.phone.Some? && ValidPhone(a.phone.value) && ValidateIdNumber(t, a.idNumber) {
      assert !IsBlank(a.idNumber);
    }
  }

  /** With a type code in the form, the ID-number format check never fires. */
  lemma CodesNeverRejectFormat(a: AttendeeInfo)
    requires a.idType.Some? && a.idType.value in IdTypeValues
    ensures FormError(a).Some? ==> !FormError(a).value.IdNumberRejected?
  {
    CodesOnlyNeedNonBlank(a.idType.value, a.idNumber);
  }

  // ---------------------------------------------------------------------
  // The page
  // ---------------------------------------------------------------------

  /**
   * What `confirmAddAttendee` did. `RealNamePending` is its state at the
   * `await`: the form it sent to the real-name service, still to be added.
   */
  datatype AddOutcome =
    | NameMissing | IdNumberMissing | PhoneMissing | PhoneMalformed
    | IdNumberRejected(message: string)
    | RealNamePending(attendee: AttendeeInfo)
    | RealNameRejected | RealNameUnavailable
    | Added

  /** The real-name service's answer for an ID card. */
  datatype RealNameReply = Verified | NotVerified | ServiceError

  /** What `confirmPurchase` did before its `await`. */
  datatype PurchaseStep =
    | Busy | NoticesUnread | NoAttendees | AttendeeIncomplete
    | SubmitGift
    | SubmitSale(payload: seq<PurchaseEntry>)

  /** The server's answer to the purchase request, or the exception it raised. */
  datatype PurchaseReply =
    | Replied(code: int, orderStatus: string, hasPayInfo: bool, payInfoParses: bool)
    | Threw

  /** How the submission ended. */
  datatype PurchaseEnd =
    | GiftDone | GiftFailed
    | PaymentRequested | PayInfoUnreadable | Purchased
    | PurchaseFailed

  /**
   * The outcomes after which `isPurchasing` stays raised: the payment sheet
   * and the relaunch leave the page, while an unreadable payInfo is
   * swallowed and the page stays with the flag stuck.
   */
  predicate KeepsFlag(e: PurchaseEnd) {
    e == PaymentRequested || e == PayInfoUnreadable || e == Purchased
  }

  /** Every attendee has a non-empty name and ID number (`!attendee.name || !attendee.idNumber` fails). */
  predicate AllComplete(list: seq<AttendeeInfo>) {
    forall i :: 0 <= i < |list| ==> list[i].name != "" && list[i].idNumber != ""
  }

  /**
   * After a successful login the buyer's entry is built from the login
   * record: the name and the label-valued type carry over, the number does
   * not, so that entry alone never passes the completeness check of
   * `confirmPurchase`.
   */
  lemma LoggedInBuyerIncomplete(f: Login.LoginForm)
    requires Login.LoginCheck(f).LoggedIn?
    ensures var a := BuyerAttendee(FromLoginRecord(Login.LoginCheck(f).user));
            a.name == f.name && a.idType == Some(f.idType) && a.idNumber == "" && !AllComplete([a])
  {
    Login.LoginOrder(f);
    var a := BuyerAttendee(FromLoginRecord(Login.LoginCheck(f).user));
    assert f.name != "" by { assert !IsBlank(f.name); }
    assert a.name == f.name;
    assert a.idType == Some(f.idType);
    assert a.idNumber == "";
    assert !AllComplete([a]) by { assert [a][0] == a; }
  }

  class OrderConfirmPage {
    var attendeeList: seq<AttendeeInfo>
    var ticketPrice: real
    var ticketCount: int
    var totalPrice: real
    /** `matchInfo.buyLimit` */
    var buyLimit: int
    var showAddModal: bool
    var newAttendee: AttendeeInfo
    var currentIdTypeIndex: int
    var isPurchasing: bool
    var hasReadNotices: bool
    /** The length of `agreementInfo`; `null` counts as 0. */
    var agreementCount: nat
    /** `type === "gift"` */
    var isGift: bool

    /** Ticket count and total price agree with the attendee list. */
    predicate Consistent()
      reads this
    {
      ticketCount == |attendeeList| && totalPrice == ticketPrice * |attendeeList| as real
    }

    /** The attendee form holds one of the picker's type codes. */
    predicate TypeIsCode()
      reads this
    {
      newAttendee.idType.Some? && newAttendee.idType.value in IdTypeValues
    }

    /**
     * The page's initial data after `onLoad`, `loadUserAttendeeInfo` and a
     * successful `loadMatchInfo`: the stored user (if any) is the one attendee.
     */
    constructor (price: real, user: Option<StoredUserInfo>, limit: int, agreements: nat, gift: bool)
      ensures attendeeList == (if user.Some? then [BuyerAttendee(user.value)] else [])
      ensures user.Some? ==> attendeeList[0].containsMySelf == Some(true)
                             && attendeeList[0].idType == Some(OrString(user.value.idType, "ID_CARD"))
      ensures ticketPrice == price && ticketCount == 1 && totalPrice == price
      ensures buyLimit == limit && agreementCount == agreements && isGift == gift
      ensures !showAddModal && !isPurchasing && !hasReadNotices && currentIdTypeIndex == 0
      ensures newAttendee == AttendeeInfo("", "", Some(""), Some("ID_CARD"), None)
      ensures TypeIsCode()
      ensures user.Some? ==> Consistent()
    {
      attendeeList := if user.Some? then [BuyerAttendee(user.value)] else [];
      ticketPrice, ticketCount, totalPrice := price, 1, price;
      buyLimit, agreementCount, isGift := limit, agreements, gift;
      showAddModal, isPurchasing, hasReadNotices := false, false, false;
      currentIdTypeIndex := 0;
      newAttendee := AttendeeInfo("", "", Some(""), Some("ID_CARD"), None);
    }

    /** `removeAttendee`: never below one attendee. */
    method RemoveAttendee(index: int)
      modifies this`attendeeList, this`ticketCount, this`totalPrice
      ensures |old(attendeeList)| <= 1 ==>
                attendeeList == old(attendeeList) && ticketCount == old(ticketCount)
                && totalPrice == old(totalPrice)
      ensures |old(attendeeList)| > 1 ==>
                attendeeList == RemoveAt(old(attendeeList), index) && Consistent()
      ensures |attendeeList| >= 1 || attendeeList == old(attendeeList)
    {
      var list := attendeeList;
      if |list| <= 1 {
        return;
      }
      list := RemoveAt(list, index);
      attendeeList := list;
      ticketCount := |list|;
      totalPrice := ticketPrice * |list| as real;
    }

    /** `addAttendee`: open the form only below the purchase limit. */
    method AddAttendee() returns (shown: bool)
      modifies this`showAddModal
      ensures shown <==> |attendeeList| < buyLimit
      ensures showAddModal == (shown || old(showAddModal))
    {
      if |attendeeList| >= buyLimit {
        return false;
      }
      showAddModal := true;
      return true;
    }

    /** `addAttendeeToList`: append a copy, close the form and clear it except for the type. */
    method AddAttendeeToList(attendee: AttendeeInfo)
      modifies this`attendeeList, this`ticketCount, this`totalPrice, this`showAddModal, this`newAttendee
      ensures attendeeList == old(attendeeList) + [attendee]
      ensures Consistent()
      ensures !showAddModal
      ensures newAttendee == AttendeeInfo("", "", Some(""), attendee.idType, None)
    {
      var list := attendeeList + [attendee];
      attendeeList := list;
      ticketCount := |list|;
      totalPrice := ticketPrice * |list| as real;
      showAddModal := false;
      newAttendee := AttendeeInfo("", "", Some(""), attendee.idType, None);
    }

    /** `closeModal`: hides the form and keeps what was typed. */
    method CloseModal()
      modifies this`showAddModal
      ensures !showAddModal
    {
      showAddModal := false;
    }

    /** `onNoticeRadioChange`: the notice radio toggles. */
    method OnNoticeRadioChange()
      modifies this`hasReadNotices
      ensures hasReadNotices == !old(hasReadNotices)
    {
      hasReadNotices := !hasReadNotices;
    }

    /** `onIdTypeChange`: the picked code, or "ID_CARD" for an index outside the picker. */
    method OnIdTypeChange(value: int)
      modifies this`newAttendee, this`currentIdTypeIndex
      ensures newAttendee == old(newAttendee).(idType :=
                Some(if 0 <= value < |IdTypeValues| then IdTypeValues[value] else "ID_CARD"))
      ensures currentIdTypeIndex == value
      ensures TypeIsCode()
    {
      var selected := if 0 <= value < |IdTypeValues| then IdTypeValues[value] else "ID_CARD";
      newAttendee := newAttendee.(idType := Some(selected));
      currentIdTypeIndex := value;
    }

    /**
     * `confirmAddAttendee` up to its `await`: a form that fails `FormError`
     * is left as it is; an ID card is sent to the real-name service and
     * waits for `OnRealNameReply`, with the modal still open and no flag
     * raised; other types are added directly.
     */
    method ConfirmAddAttendee() returns (r: AddOutcome)
      modifies this`attendeeList, this`ticketCount, this`totalPrice, this`showAddModal, this`newAttendee
      ensures FormError(old(newAttendee)).Some? ==> r == FormError(old(newAttendee)).value
      ensures FormError(old(newAttendee)).None? ==>
                r == (if old(newAttendee).idType == Some("ID_CARD") then RealNamePending(old(newAttendee))
                      else Added)
      ensures r == Added ==> attendeeList == old(attendeeList) + [old(newAttendee)] && Consistent()
                             && !showAddModal
                             && newAttendee == AttendeeInfo("", "", Some(""), old(newAttendee).idType, None)
      ensures r != Added ==> attendeeList == old(attendeeList) && newAttendee == old(newAttendee)
                             && ticketCount == old(ticketCount) && totalPrice == old(totalPrice)
                             && showAddModal == old(showAddModal)
      ensures old(TypeIsCode()) ==> !r.IdNumberRejected?
    {
      var a := newAttendee;
      var err := FormError(a);
      if err.Some? {
        if old(TypeIsCode()) {
          CodesNeverRejectFormat(a);
        }
        return err.value;
      }
      if a.idType == Some("ID_CARD") {
        return RealNamePending(a);
      }
      AddAttendeeToList(a);
      r := Added;
    }

    /**
     * The rest of `confirmAddAttendee` once the real-name service answers:
     * the attendee sent is added only when verified. Nothing checks the
     * purchase limit or whether the modal is still open.
     */
    method OnRealNameReply(attendee: AttendeeInfo, reply: RealNameReply) returns (r: AddOutcome)
      modifies this`attendeeList, this`ticketCount, this`totalPrice, this`showAddModal, this`newAttendee
      ensures r == (match reply
                    case Verified => Added
                    case NotVerified => RealNameRejected
                    case ServiceError => RealNameUnavailable)
      ensures r == Added ==> attendeeList == old(attendeeList) + [attendee] && Consistent()
                             && !showAddModal
                             && newAttendee == AttendeeInfo("", "", Some(""), attendee.idType, None)
      ensures r != Added ==> attendeeList == old(attendeeList) && newAttendee == old(newAttendee)
                             && ticketCount == old(ticketCount) && totalPrice == old(totalPrice)
                             && showAddModal == old(showAddModal)
    {
      match reply
      case Verified =>
        AddAttendeeToList(attendee);
        r := Added;
      case NotVerified =>
        r := RealNameRejected;
      case ServiceError =>
        r := RealNameUnavailable;
    }

    /**
     * `confirmPurchase` up to its `await`: a running submission is not
     * repeated; the notices (when there are any), a non-empty list and
     * complete attendees are required; only then is `isPurchasing` raised.
     */
    method ConfirmPurchase() returns (r: PurchaseStep)
      modifies this`isPurchasing
      ensures old(isPurchasing) <==> r == Busy
      ensures r == NoticesUnread <==> !old(isPurchasing) && !hasReadNotices && agreementCount > 0
      ensures r == NoAttendees <==>
                !old(isPurchasing) && (hasReadNotices || agreementCount == 0) && attendeeList == []
      ensures r == AttendeeIncomplete <==>
                !old(isPurchasing) && (hasReadNotices || agreementCount == 0) && attendeeList != []
                && !AllComplete(attendeeList)
      ensures r.SubmitGift? || r.SubmitSale? <==>
                !old(isPurchasing) && (hasReadNotices || agreementCount == 0) && attendeeList != []
                && AllComplete(attendeeList)
      ensures r.SubmitGift? <==> (r.SubmitGift? || r.SubmitSale?) && isGift
      ensures r.SubmitSale? ==> r.payload == PurchasePayload(attendeeList)
      ensures isPurchasing == (r == Busy || r.SubmitGift? || r.SubmitSale?)
    {
      if isPurchasing {
        return Busy;
      }
      if !hasReadNotices && agreementCount > 0 {
        return NoticesUnread;
      }
      if |attendeeList| == 0 {
        return NoAttendees;
      }
      var i := 0;
      while i < |attendeeList|
        invariant 0 <= i <= |attendeeList|
        invariant AllComplete(attendeeList[..i])
      {
        var attendee := attendeeList[i];
        if attendee.name == "" || attendee.idNumber == "" {
          return AttendeeIncomplete;
        }
        i := i + 1;
      }
      assert attendeeList[..i] == attendeeList;
      isPurchasing := true;
      if isGift {
        return SubmitGift;
      }
      return SubmitSale(PurchasePayload(attendeeList));
    }

    /**
     * The rest of `confirmPurchase`, once the request settles. Failures and
     * the gift paths lower `isPurchasing` again; the payment sheet and the
     * sale relaunch keep it raised as they leave the page, and an unreadable
     * payInfo, whose error is swallowed, keeps it raised on a page that stays.
     */
    method OnPurchaseReply(reply: PurchaseReply) returns (e: PurchaseEnd)
      requires isPurchasing
      modifies this`isPurchasing
      ensures isGift ==> (e == GiftDone <==> reply.Replied? && reply.code == 200)
      ensures isGift ==> e == GiftDone || e == GiftFailed
      ensures !isGift ==> (e == PaymentRequested <==>
                reply.Replied? && reply.code == 200 && reply.orderStatus == "WAIT_PAY"
                && reply.hasPayInfo && reply.payInfoParses)
      ensures !isGift ==> (e == PayInfoUnreadable <==>
                reply.Replied? && reply.code == 200 && reply.orderStatus == "WAIT_PAY"
                && reply.hasPayInfo && !reply.payInfoParses)
      ensures !isGift ==> (e == Purchased <==>
                reply.Replied? && reply.code == 200 && !(reply.orderStatus == "WAIT_PAY" && reply.hasPayInfo))
      ensures !isGift ==> (e == PurchaseFailed <==> reply.Threw? || reply.code != 200)
      ensures isPurchasing <==> KeepsFlag(e)
    {
      if isGift {
        if reply.Replied? && reply.code == 200 {
          isPurchasing := false;
          return GiftDone;
        }
        isPurchasing := false;
        return GiftFailed;
      }
      if reply.Threw? {
        isPurchasing := false;
        return PurchaseFailed;
      }
      if reply.code == 200 {
        if reply.orderStatus == "WAIT_PAY" && reply.hasPayInfo {
          if reply.payInfoParses {
            return PaymentRequested;
          }
          return PayInfoUnreadable;
        }
        return Purchased;
      }
      isPurchasing := false;
      return PurchaseFailed;
    }
  }

  /**
   * Nothing guards the real-name check: a second tap on "confirm" while the
   * first check is pending sends the same form again, and two verified
   * replies add it twice, one past the purchase limit.
   */
  method SecondAddTapPassesLimit(page: OrderConfirmPage) returns (first: AddOutcome, second: AddOutcome)
    requires |page.attendeeList| + 1 == page.buyLimit
    requires FormError(page.newAttendee).None? && page.newAttendee.idType == Some("ID_CARD")
    modifies page
    ensures first.RealNamePending? && second == first
    ensures page.attendeeList == old(page.attendeeList) + [old(page.newAttendee), old(page.newAttendee)]
    ensures page.buyLimit == old(page.buyLimit) && |page.attendeeList| == page.buyLimit + 1
  {
    first := page.ConfirmAddAttendee();
    second := page.ConfirmAddAttendee();
    var r1 := page.OnRealNameReply(first.attendee, Verified);
    var r2 := page.OnRealNameReply(second.attendee, Verified);
  }

  /** A second tap while the first submission is in flight is turned away and changes nothing. */
  method DoubleTapIsDebounced(page: OrderConfirmPage) returns (first: PurchaseStep, second: PurchaseStep)
    requires !page.isPurchasing && page.attendeeList != [] && AllComplete(page.attendeeList)
    requires page.hasReadNotices
    modifies page
    ensures first.SubmitGift? || first.SubmitSale?
    ensures second == Busy && page.isPurchasing
  {
    first := page.ConfirmPurchase();
    second := page.ConfirmPurchase();
  }

  /**
   * After an unreadable payInfo on the sale path the page stays with
   * `isPurchasing` raised, so the next tap is turned away as busy.
   */
  method UnreadablePayInfoBlocksRetry(page: OrderConfirmPage, reply: PurchaseReply)
    returns (e: PurchaseEnd, next: PurchaseStep)
    requires page.isPurchasing && !page.isGift
    requires reply.Replied? && reply.code == 200 && reply.orderStatus == "WAIT_PAY"
    requires reply.hasPayInfo && !reply.payInfoParses
    modifies page
    ensures e == PayInfoUnreadable && next == Busy
  {
    e := page.OnPurchaseReply(reply);
    next := page.ConfirmPurchase();
  }
}
