/**
 * The registration screen: personal fields, a province → district → ward address
 * picker fed by a public address API, an OTP field, and `registerUser`, which
 * checks the form, composes the address line and posts the account only once the
 * OTP has been entered.
 *
 * The address API, the register endpoint, the clock and `formatDateOnlyDate` are
 * outside the model: their answers arrive as parameters, and the payload carries
 * the selected date itself rather than its formatted text.
 */
module Register {
  import opened Wrappers
  import opened JsString

  /** An entry of the address API (province, district or ward). */
  datatype AddressItem = AddressItem(name: string, code: int)

  /** The picker a modal is open for (`modalType`). */
  datatype Level = ProvinceLevel | DistrictLevel | WardLevel

  /** The two checks of `registerUser`, in the order they run. */
  datatype RegisterError = PasswordMismatch | IncompleteAddress

  /** The personal fields of the form; `address` is the street line the user types. */
  datatype Personal = Personal(
    phoneNumber: string, firstName: string, lastName: string, selectedDate: int,
    gender: string, password: string, confirmPassword: string, address: string,
    latitude: int, longitude: int, otp: string)

  /** The three address selections. */
  datatype AddressPick = AddressPick(
    province: Option<AddressItem>, district: Option<AddressItem>, ward: Option<AddressItem>)

  /** What an address-list request returned: a failure (reported with an alert) or
      a list. A reply without a `districts` / `wards` field is the empty list. */
  datatype ListReply = ListFailed | ListLoaded(items: seq<AddressItem>)

  /** The body `registerUser` posts. `dob` is the selected date, which the
      screen's code formats with `formatDateOnlyDate`. */
  datatype Payload = Payload(
    phone: string, firstName: string, lastName: string, dob: int, gender: string,
    password: string, confirmedPassword: string, address: string,
    latitude: string, longitude: string)

  /** What the register endpoint did: threw, or answered with `isSuccess`. */
  datatype PostReply = PostThrew | Answered(isSuccess: bool)

  /** How `registerUser` ended. */
  datatype RegisterOutcome =
    | Rejected(error: RegisterError)   // an error alert, nothing sent
    | AwaitingOtp                      // OTP field shown, nothing sent
    | RequestFailed                    // sent, the request threw
    | NotRegistered                    // sent, the server said no
    | Registered                       // sent, accepted: form reset, on to the login screen

  /** The form's state right after `resetForm`, at clock reading `now`. */
  function Cleared(now: int): Personal {
    Personal("", "", "", now, "", "", "", "", 0, 0, "")
  }

  /** The checks of `registerUser`: None when the request may be built,
      otherwise the alert shown. */
  function CheckRegistration(p: Personal, pick: AddressPick): (r: Option<RegisterError>)
    ensures r.None? <==> p.password == p.confirmPassword && pick.province.Some?
                         && pick.district.Some? && pick.ward.Some? && p.address != ""
    ensures p.password != p.confirmPassword ==> r == Some(PasswordMismatch)
    ensures r == Some(IncompleteAddress) ==> p.password == p.confirmPassword
  {
    if p.password != p.confirmPassword then Some(PasswordMismatch)
    else if pick.province.None? || pick.district.None? || pick.ward.None? || p.address == "" then
      Some(IncompleteAddress)
    else None
  }

  /** The address line: street, ward, district and province joined by ", ",
      except that two spaces follow the comma before the district. */
  function ComposeAddress(street: string, ward: string, district: string, province: string): (r: string)
    ensures |r| == |street| + |ward| + |district| + |province| + 7
  {
    street + ", " + ward + ",  " + district + ", " + province
  }

  /** `s.split(c)`: the pieces of `s` between occurrences of `c`. */
  function Split(s: string, c: char): (r: seq<string>)
    ensures |r| >= 1
    decreases |s|
  {
    if s == [] then [""]
    else if s[0] == c then [""] + Split(s[1..], c)
    else
      var rest := Split(s[1..], c);
      [[s[0]] + rest[0]] + rest[1..]
  }

  /** Splitting a piece without `c`, then `c`, then the rest, gives that piece
      followed by the pieces of the rest. */
  lemma {:induction false} SplitAfterPiece(a: string, b: string, c: char)
    requires c !in a
    ensures Split(a + [c] + b, c) == [a] + Split(b, c)
    decreases |a|
  {
    if a == [] {
      assert a + [c] + b == [c] + b;
    } else {
      var s := a + [c] + b;
      SplitAfterPiece(a[1..], b, c);
      assert s[0] == a[0] && a[0] in a;
      assert s[1..] == a[1..] + [c] + b;
      assert [a[0]] + a[1..] == a;
    }
  }

  /** A string without `c` is one piece. */
  lemma {:induction false} SplitWhole(a: string, c: char)
    requires c !in a
    ensures Split(a, c) == [a]
    decreases |a|
  {
    if a != [] {
      SplitWhole(a[1..], c);
      assert a[0] in a;
      assert [a[0]] + a[1..] == a;
    }
  }

  /** When no name contains a comma, splitting the composed address at commas
      gives back the street and the names, each after its spaces: the address
      line loses nothing. */
  lemma AddressSplitsBack(street: string, ward: string, district: string, province: string)
    requires ',' !in street && ',' !in ward && ',' !in district && ',' !in province
    ensures Split(ComposeAddress(street, ward, district, province), ',')
         == [street, " " + ward, "  " + district, " " + province]
  {
    var w, d, p := " " + ward, "  " + district, " " + province;
    assert ComposeAddress(street, ward, district, province)
        == street + [','] + (w + [','] + (d + [','] + p));
    SplitWhole(p, ',');
    SplitAfterPiece(d, p, ',');
    SplitAfterPiece(w, d + [','] + p, ',');
    SplitAfterPiece(street, w + [','] + (d + [','] + p), ',');
  }

  /** The request body: the personal fields as typed, the composed address, and
      "0" for both coordinates whatever the form's coordinates hold. */
  function BuildPayload(p: Personal, pick: AddressPick): (d: Payload)
    requires pick.province.Some? && pick.district.Some? && pick.ward.Some?
    ensures d.phone == p.phoneNumber && d.firstName == p.firstName && d.lastName == p.lastName
    ensures d.dob == p.selectedDate && d.gender == p.gender
    ensures d.password == p.password && d.confirmedPassword == p.confirmPassword
    ensures d.address == ComposeAddress(p.address, pick.ward.value.name,
                                        pick.district.value.name, pick.province.value.name)
    ensures d.latitude == "0" && d.longitude == "0"
  {
    Payload(p.phoneNumber, p.firstName, p.lastName, p.selectedDate, p.gender, p.password,
            p.confirmPassword,
            ComposeAddress(p.address, pick.ward.value.name, pick.district.value.name, pick.province.value.name),
            "0", "0")
  }

  /** The text the OTP field must contain before the request is posted. */
  const OTP_CODE: string := "111111"

  /** `otp.match('111111')` is truthy: the code occurs anywhere in the field,
      which needs at least six characters. */
  predicate OtpAccepted(otp: string): (r: bool)
    ensures r ==> |otp| >= |OTP_CODE|
  {
    Contains(otp, OTP_CODE)
  }

  /** The OTP gate is a substring test, not an equality test: the field is accepted
      exactly when six ones appear in a row somewhere in it, so the exact code and
      any text around it pass, and a field shorter than the code does not. */
  lemma OtpGate(otp: string, before: string, after: string)
    ensures OtpAccepted(otp) <==> exists i :: OccursAt(otp, OTP_CODE, i)
    ensures OtpAccepted(before + OTP_CODE + after)
    ensures |otp| < 6 ==> !OtpAccepted(otp)
  {
    ContainsIffOccurs(otp, OTP_CODE);
    var s := before + OTP_CODE + after;
    ContainsIffOccurs(s, OTP_CODE);
    assert s[|before|..|before| + |OTP_CODE|] == OTP_CODE;
    assert OccursAt(s, OTP_CODE, |before|);
  }

  /** The list a modal shows for each level (`openModal`): each level shows its
      own list and no other. */
  function ListFor(t: Level, provinces: seq<AddressItem>, districts: seq<AddressItem>,
                   wards: seq<AddressItem>): (r: seq<AddressItem>)
    ensures t == ProvinceLevel ==> r == provinces
    ensures t == DistrictLevel ==> r == districts
    ensures t == WardLevel ==> r == wards
  {
    match t
    case ProvinceLevel => provinces
    case DistrictLevel => districts
    case WardLevel => wards
  }

  /** A list after a request for it: the loaded list, or the old one on failure. */
  function Refreshed(list: seq<AddressItem>, reply: ListReply): (r: seq<AddressItem>)
    ensures reply.ListFailed? ==> r == list
    ensures reply.ListLoaded? ==> r == reply.items
  {
    if reply.ListLoaded? then reply.items else list
  }

  /** The screen's state. */
  class RegisterScreen {
    var phoneNumber: string
    var firstName: string
    var lastName: string
    var otp: string
    var showOTP: bool
    var selectedDate: int
    var gender: string
    var password: string
    var confirmPassword: string
    var loading: bool
    var provinces: seq<AddressItem>
    var districts: seq<AddressItem>
    var wards: seq<AddressItem>
    var selectedProvince: Option<AddressItem>
    var selectedDistrict: Option<AddressItem>
    var selectedWard: Option<AddressItem>
    var address: string
    var latitude: int
    var longitude: int
    var modalVisible: bool
    var modalData: seq<AddressItem>
    var modalType: Level

    function PersonalFields(): Personal
      reads this
    {
      Personal(phoneNumber, firstName, lastName, selectedDate, gender, password,
               confirmPassword, address, latitude, longitude, otp)
    }

    function Pick(): AddressPick
      reads this
    {
      AddressPick(selectedProvince, selectedDistrict, selectedWard)
    }

    /** The initial state, at clock reading `now`. */
    constructor (now: int)
      ensures PersonalFields() == Cleared(now) && !showOTP && !loading
      ensures Pick() == AddressPick(None, None, None)
      ensures provinces == [] && districts == [] && wards == []
      ensures !modalVisible && modalData == [] && modalType == ProvinceLevel
    {
      phoneNumber, firstName, lastName, otp := "", "", "", "";
      showOTP, loading, modalVisible := false, false, false;
      selectedDate := now;
      gender, password, confirmPassword, address := "", "", "", "";
      provinces, districts, wards, modalData := [], [], [], [];
      selectedProvince, selectedDistrict, selectedWard := None, None, None;
      latitude, longitude := 0, 0;
      modalType := ProvinceLevel;
    }

    /** `fetchProvinces`, run once when the screen mounts. */
    method FetchProvinces(reply: ListReply) returns (reported: bool)
      modifies this`provinces
      ensures provinces == Refreshed(old(provinces), reply)
      ensures reported <==> reply.ListFailed?
    {
      reported := reply.ListFailed?;
      provinces := Refreshed(provinces, reply);
    }

    /** `openModal(t)`: shows the list of level `t`. */
    method OpenModal(t: Level)
      modifies this`modalData, this`modalType, this`modalVisible
      ensures modalData == ListFor(t, provinces, districts, wards)
      ensures modalType == t && modalVisible
    {
      match t {
        case ProvinceLevel => modalData := provinces;
        case DistrictLevel => modalData := districts;
        case WardLevel => modalData := wards;
      }
      modalType := t;
      modalVisible := true;
    }

    /** A press on one of the three picker fields. The district field is disabled
        until a province is selected and the ward field until a district is, so a
        press on a disabled field changes nothing (the alert in its handler cannot
        be reached); an enabled field opens its modal. */
    method PressPicker(t: Level) returns (shown: bool)
      modifies this`modalData, this`modalType, this`modalVisible
      ensures shown <==> !((t == DistrictLevel && selectedProvince.None?)
                             || (t == WardLevel && selectedDistrict.None?))
      ensures shown ==> modalData == ListFor(t, provinces, districts, wards)
                         && modalType == t && modalVisible
      ensures !shown ==> modalData == old(modalData) && modalType == old(modalType)
                          && modalVisible == old(modalVisible)
    {
      shown := !((t == DistrictLevel && selectedProvince.None?)
                  || (t == WardLevel && selectedDistrict.None?));
      if shown {
        OpenModal(t);
      }
    }

    /** `handleSelect(item)`: stores the item in the slot `modalType` names and
        closes the modal; `changed` tells whether the slot's value changed, which
        is what makes React run the effect watching it. */
    method HandleSelect(item: AddressItem) returns (changed: bool)
      modifies this`selectedProvince, this`selectedDistrict, this`selectedWard, this`modalVisible
      ensures modalType == ProvinceLevel ==> Pick() == old(Pick()).(province := Some(item))
      ensures modalType == DistrictLevel ==> Pick() == old(Pick()).(district := Some(item))
      ensures modalType == WardLevel ==> Pick() == old(Pick()).(ward := Some(item))
      ensures changed <==> Pick() != old(Pick())
      ensures !modalVisible
    {
      match modalType {
        case ProvinceLevel =>
          changed := selectedProvince != Some(item);
          selectedProvince := Some(item);
        case DistrictLevel =>
          changed := selectedDistrict != Some(item);
          selectedDistrict := Some(item);
        case WardLevel =>
          changed := selectedWard != Some(item);
          selectedWard := Some(item);
      }
      modalVisible := false;
    }

    /** The effect on `selectedProvince`: with a province selected, its districts
        are requested and the district and ward selections are cleared. */
    method ProvinceEffect(reply: ListReply) returns (reported: bool)
      modifies this`districts, this`selectedDistrict, this`selectedWard
      ensures selectedProvince.Some? ==>
        districts == Refreshed(old(districts), reply) && selectedDistrict.None? && selectedWard.None?
        && (reported <==> reply.ListFailed?)
      ensures selectedProvince.None? ==>
        districts == old(districts) && Pick() == old(Pick()) && !reported
    {
      reported := false;
      if selectedProvince.Some? {
        reported := reply.ListFailed?;
        districts := Refreshed(districts, reply);
        selectedDistrict := None;
        selectedWard := None;
      }
    }

    /** The effect on `selectedDistrict`: with a district selected, its wards are
        requested and the ward selection is cleared. */
    method DistrictEffect(reply: ListReply) returns (reported: bool)
      modifies this`wards, this`selectedWard
      ensures selectedDistrict.Some? ==>
        wards == Refreshed(old(wards), reply) && selectedWard.None? && (reported <==> reply.ListFailed?)
      ensures selectedDistrict.None? ==> wards == old(wards) && selectedWard == old(selectedWard) && !reported
    {
      reported := false;
      if selectedDistrict.Some? {
        reported := reply.ListFailed?;
        wards := Refreshed(wards, reply);
        selectedWard := None;
      }
    }

    /** Picking `item` in the open modal, followed by the effects the change
        triggers; `reply` answers the list request the effect makes. Picking a
        new province clears district and ward; picking a new district clears the
        ward; picking the value already selected triggers nothing. */
    method SelectAddress(item: AddressItem, reply: ListReply) returns (reported: bool)
      modifies this`selectedProvince, this`selectedDistrict, this`selectedWard, this`modalVisible
      modifies this`districts, this`wards
      ensures !modalVisible
      ensures old(modalType) == ProvinceLevel && old(selectedProvince) != Some(item) ==>
        Pick() == AddressPick(Some(item), None, None)
        && districts == Refreshed(old(districts), reply) && wards == old(wards)
        && (reported <==> reply.ListFailed?)
      ensures old(modalType) == DistrictLevel && old(selectedDistrict) != Some(item) ==>
        Pick() == AddressPick(old(selectedProvince), Some(item), None)
        && wards == Refreshed(old(wards), reply) && districts == old(districts)
        && (reported <==> reply.ListFailed?)
      ensures || old(modalType) == WardLevel
              || (old(modalType) == ProvinceLevel && old(selectedProvince) == Some(item))
              || (old(modalType) == DistrictLevel && old(selectedDistrict) == Some(item)) ==>
        Pick() == old(Pick()).(ward := if old(modalType) == WardLevel then Some(item) else old(selectedWard))
        && districts == old(districts) && wards == old(wards) && !reported
    {
      var changed := HandleSelect(item);
      reported := false;
      if changed && modalType == ProvinceLevel {
        reported := ProvinceEffect(reply);
        // clearing the district re-runs the district effect, which does nothing
        // without a district
        var _ := DistrictEffect(reply);
      } else if changed && modalType == DistrictLevel {
        reported := DistrictEffect(reply);
      }
    }

    /** `resetForm`: clears the personal fields, the OTP and the coordinates,
        takes the current date, and hides the OTP field. The address selections,
        the lists and the modal are left as they are. */
    method ResetForm(now: int)
      modifies this`phoneNumber, this`firstName, this`lastName, this`selectedDate, this`gender
      modifies this`password, this`confirmPassword, this`address, this`latitude, this`longitude
      modifies this`otp, this`showOTP
      ensures PersonalFields() == Cleared(now) && !showOTP
    {
      phoneNumber, firstName, lastName := "", "", "";
      selectedDate := now;
      gender, password, confirmPassword, address := "", "", "", "";
      latitude, longitude := 0, 0;
      otp := "";
      showOTP := false;
    }

    /** `registerUser`, at clock reading `now`, with `reply` the register
        endpoint's answer should the request be posted. A failed check reports
        its alert and changes nothing. Otherwise the OTP field is shown, and the
        payload is posted only if the OTP field holds the code; a successful
        registration resets the form. `loading` is lowered however it ends. */
    method RegisterUser(now: int, reply: PostReply) returns (outcome: RegisterOutcome, sent: Option<Payload>)
      modifies this`phoneNumber, this`firstName, this`lastName, this`selectedDate, this`gender
      modifies this`password, this`confirmPassword, this`address, this`latitude, this`longitude
      modifies this`otp, this`showOTP, this`loading
      ensures var check := CheckRegistration(old(PersonalFields()), Pick());
        check.Some? ==> outcome == Rejected(check.value) && sent == None
                        && PersonalFields() == old(PersonalFields()) && showOTP == old(showOTP)
                        && loading == old(loading)
      ensures CheckRegistration(old(PersonalFields()), Pick()).None? && !OtpAccepted(old(otp)) ==>
        outcome == AwaitingOtp && sent == None && showOTP && !loading
        && PersonalFields() == old(PersonalFields())
      ensures CheckRegistration(old(PersonalFields()), Pick()).None? && OtpAccepted(old(otp)) ==>
        && sent == Some(BuildPayload(old(PersonalFields()), Pick())) && !loading
        && outcome == (match reply
                       case PostThrew => RequestFailed
                       case Answered(ok) => if ok then Registered else NotRegistered)
        && (outcome == Registered ==> PersonalFields() == Cleared(now) && !showOTP)
        && (outcome != Registered ==> PersonalFields() == old(PersonalFields()) && showOTP)
    {
      var check := CheckRegistration(PersonalFields(), Pick());
      if check.Some? {
        return Rejected(check.value), None;
      }
      loading := true;
      var data := BuildPayload(PersonalFields(), Pick());
      showOTP := true;
      sent := None;
      if OtpAccepted(otp) {
        sent := Some(data);
        match reply {
          case PostThrew =>
            outcome := RequestFailed;
          case Answered(ok) =>
            if ok {
              ResetForm(now);
              outcome := Registered;
            } else {
              outcome := NotRegistered;
            }
        }
      } else {
        outcome := AwaitingOtp;
      }
      loading := false;
    }
  }
}
