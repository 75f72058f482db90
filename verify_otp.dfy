/** `/api/twilio/verify-otp`: checking a one-time code against the number it was sent to. */
module VerifyOtp {
  import opened Common
  import opened Strings
  import opened SendOtp

  /** `POST`: without phone or code, 400 and no vendor call; otherwise the vendor checks the code
      for the same destination as the send. Status "approved" is success; any other status is
      400 "Invalid OTP"; a throw is 500. */
  function Post(phone: string, code: string, check: (string, string) -> VendorResult<string>): (o: Outcome)
    ensures (phone == "" || code == "") <==> o.vendorCall.None?
    ensures (phone == "" || code == "") ==> o.resp == Response(400, Failure("Phone and code required"))
    ensures phone != "" && code != "" ==> o.vendorCall == Some(Destination(phone))
    ensures phone != "" && code != "" ==>
              match check(Destination(phone), code)
              case VendorOk(status) =>
                o.resp == (if status == "approved" then Response(200, Verified) else Response(400, Failure("Invalid OTP")))
              case VendorThrew => o.resp == Response(500, Crash(VendorError))
    ensures o.resp.status == 200 <==>
              phone != "" && code != "" && check(Destination(phone), code) == VendorOk("approved")
  {
    if phone == "" || code == "" then Outcome(Response(400, Failure("Phone and code required")), None)
    else
      var to := Destination(phone);
      match check(to, code)
      case VendorOk(status) =>
        if status == "approved" then Outcome(Response(200, Verified), Some(to))
        else Outcome(Response(400, Failure("Invalid OTP")), Some(to))
      case VendorThrew => Outcome(Response(500, Crash(VendorError)), Some(to))
  }

  /** A code sent with `send-otp` is checked against the very number it went to: "+91" and the
      number without its leading zeros. */
  lemma SameDestination(phone: string, code: string, send: string -> VendorResult<string>,
                        check: (string, string) -> VendorResult<string>)
    requires phone != "" && code != ""
    ensures Post(phone, code, check).vendorCall == SendOtp.Post(phone, send).vendorCall
    ensures Post(phone, code, check).vendorCall == Some("+91" + StripLeadingZeros(phone))
  {
  }
}
