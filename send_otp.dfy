/** `/api/twilio/send-otp`: sending a one-time code by SMS to an Indian mobile number. */
module SendOtp {
  import opened Common
  import opened Strings

  /** What the SMS verification service does with a request: succeeds with an id, or throws. */
  datatype VendorResult<T> = VendorOk(value: T) | VendorThrew

  datatype OtpBody = Sent(sid: string) | Verified | Failure(error: string) | Crash(details: Fault)

  /** A response together with the destination the vendor was called for, if it was. */
  datatype Outcome = Outcome(resp: Response<OtpBody>, vendorCall: Option<string>)

  /** The E.164 destination: "+91" and the number with its leading zeros removed. */
  function Destination(phone: string): (to: string)
    ensures |to| >= 3 && to[..3] == "+91"
    ensures to[3..] == StripLeadingZeros(phone)
  {
    "+91" + StripLeadingZeros(phone)
  }

  /** Leading zeros do not change the destination. */
  lemma LeadingZeroIrrelevant(phone: string)
    ensures Destination("0" + phone) == Destination(phone)
  {
    assert ("0" + phone)[1..] == phone;
  }

  /** A number that does not start with a zero is sent as it is. */
  lemma NoLeadingZeroKept(phone: string)
    requires phone == [] || phone[0] != '0'
    ensures Destination(phone) == "+91" + phone
  {
  }

  /** Normalising a normalised number changes nothing. */
  lemma DestinationIdempotent(phone: string)
    ensures Destination(StripLeadingZeros(phone)) == Destination(phone)
  {
    StripLeadingZerosIdempotent(phone);
  }

  /** Only the leading run of zeros goes: "007080" is sent to "+917080". */
  lemma InteriorZerosKept()
    ensures Destination("007080") == "+917080"
  {
    assert "007080"[1..] == "07080";
    assert "07080"[1..] == "7080";
  }

  /** `POST`: without a phone number, 400 and no vendor call; otherwise the vendor is asked to
      send to the destination, giving its verification id, or 500 when it throws. */
  function Post(phone: string, send: string -> VendorResult<string>): (o: Outcome)
    ensures phone == "" <==> o.vendorCall.None?
    ensures phone == "" ==> o.resp == Response(400, Failure("Phone number required"))
    ensures phone != "" ==> o.vendorCall == Some(Destination(phone))
    ensures phone != "" && send(Destination(phone)).VendorOk? ==>
              o.resp == Response(200, Sent(send(Destination(phone)).value))
    ensures phone != "" && send(Destination(phone)).VendorThrew? ==> o.resp == Response(500, Crash(VendorError))
  {
    if phone == "" then Outcome(Response(400, Failure("Phone number required")), None)
    else
      var to := Destination(phone);
      match send(to)
      case VendorOk(sid) => Outcome(Response(200, Sent(sid)), Some(to))
      case VendorThrew => Outcome(Response(500, Crash(VendorError)), Some(to))
  }
}
