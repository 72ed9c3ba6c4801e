/** The simulated phone/OTP login (src/components/auth/OTPLogin.tsx) and
    the two form schemas it validates with (src/schemas/phoneSchema.ts,
    src/schemas/otpSchema.ts).

    The form moves `phone -> otp -> phone`; the delays before the step
    change (1000 ms) and before the OTP verdict (500 ms) are kept as a
    pending-timer count and as one step respectively. The country list is
    filtered to the entries with a dial root, sorted by name with a
    caller-supplied comparator standing for `localeCompare`, and turned
    into select options. */
module OtpLogin {
  import opened Types
  import opened Seqs
  import opened CountryList

  const MIN_PHONE_LENGTH := 6
  const MAX_PHONE_LENGTH := 15
  const OTP_LENGTH := 6
  const DEMO_OTP := "123456"

  datatype PhoneFormData = PhoneFormData(countryCode: string, phoneNumber: string)

  /** `phoneSchema`: a selected country and a number of 6 to 15 characters. */
  predicate PhoneValid(d: PhoneFormData) {
    |d.countryCode| >= 1 && MIN_PHONE_LENGTH <= |d.phoneNumber| <= MAX_PHONE_LENGTH
  }

  /** `otpSchema`: exactly six characters. */
  predicate OtpValid(otp: string) {
    |otp| == OTP_LENGTH
  }

  /** The verdict of the OTP check: the demo code or any six characters. */
  predicate OtpAccepted(otp: string) {
    otp == DEMO_OTP || |otp| == 6
  }

  /** The demo-code case adds nothing: the check accepts exactly the
      six-character codes, so every code the schema lets through passes. */
  lemma OtpAcceptedIffSixChars(otp: string)
    ensures OtpAccepted(otp) <==> |otp| == OTP_LENGTH
    ensures OtpValid(otp) ==> OtpAccepted(otp)
  {
  }

  /** What submitting the OTP form leads to. */
  datatype OtpOutcome =
    | SchemaRejected                                     // the schema stops the submit
    | InvalidOtp                                         // "Invalid OTP" notice
    | AcceptedWithoutPhone                               // success notice, no `onSuccess`
    | LoggedIn(phoneNumber: string, countryCode: string)  // `onSuccess(phoneNumber, countryCode)`

  /** Schema validation, then (after the delay) the verdict and the call of
      `onSuccess` with the stored phone data when there is one. */
  function VerifyOtp(otp: string, phoneData: Option<PhoneFormData>): (r: OtpOutcome)
    ensures r.SchemaRejected? <==> !OtpValid(otp)
    ensures !r.InvalidOtp?
    ensures r.LoggedIn? <==> OtpValid(otp) && phoneData.Some?
    ensures r.LoggedIn? ==>
      r.phoneNumber == phoneData.value.phoneNumber && r.countryCode == phoneData.value.countryCode
  {
    if !OtpValid(otp) then SchemaRejected
    else if !OtpAccepted(otp) then InvalidOtp
    else match phoneData
      case None => AcceptedWithoutPhone
      case Some(d) => LoggedIn(d.phoneNumber, d.countryCode)
  }

  datatype Step = PhoneStep | OtpStep

  /** The login form's state. `pendingOtpSteps` counts the timers that a
      phone submit scheduled and that have not fired yet. */
  class LoginForm {
    var step: Step
    var phoneData: Option<PhoneFormData>
    var otp: string
    var pendingOtpSteps: nat

    /** The OTP step, and every pending switch to it, come after a stored
        phone submit. */
    ghost predicate Valid()
      reads this
    {
      (step == OtpStep || pendingOtpSteps > 0) ==> phoneData.Some?
    }

    constructor ()
      ensures Valid()
      ensures step == PhoneStep && phoneData == None && otp == "" && pendingOtpSteps == 0
    {
      step := PhoneStep;
      phoneData := None;
      otp := "";
      pendingOtpSteps := 0;
    }

    /** Submitting the phone form: the schema runs first; a valid submit
        stores the data and schedules the switch to the OTP step. */
    method SubmitPhone(data: PhoneFormData) returns (accepted: bool)
      requires Valid() && step == PhoneStep
      modifies this
      ensures Valid()
      ensures accepted == PhoneValid(data)
      ensures accepted ==> phoneData == Some(data) && pendingOtpSteps == old(pendingOtpSteps) + 1
      ensures !accepted ==> phoneData == old(phoneData) && pendingOtpSteps == old(pendingOtpSteps)
      ensures step == old(step) && otp == old(otp)
    {
      accepted := |data.countryCode| >= 1 && 6 <= |data.phoneNumber| <= 15;
      if accepted {
        phoneData := Some(data);
        pendingOtpSteps := pendingOtpSteps + 1;
      }
    }

    /** The deferred part of a phone submit: "OTP sent", then the OTP step. */
    method OtpSentTimerFires()
      requires Valid() && pendingOtpSteps > 0
      modifies this
      ensures Valid()
      ensures step == OtpStep && pendingOtpSteps == old(pendingOtpSteps) - 1
      ensures phoneData == old(phoneData) && otp == old(otp)
    {
      step := OtpStep;
      pendingOtpSteps := pendingOtpSteps - 1;
    }

    /** Typing in the OTP field. */
    method EnterOtp(value: string)
      modifies this
      ensures otp == value
      ensures step == old(step) && phoneData == old(phoneData) && pendingOtpSteps == old(pendingOtpSteps)
    {
      otp := value;
    }

    /** "Back": the phone step again, with the OTP cleared; the stored phone
        data stays. */
    method Back()
      requires Valid()
      modifies this
      ensures Valid()
      ensures step == PhoneStep && otp == ""
      ensures phoneData == old(phoneData) && pendingOtpSteps == old(pendingOtpSteps)
    {
      step := PhoneStep;
      otp := "";
    }

    /** Submitting the OTP form. The code checked is the value the form
        library hands to `onOTPSubmit` (`data.otp`), which is a parameter
        here: the visible `otp` field is the component's own state and is
        not what the handler reads. On the OTP step a phone submit has been
        stored, so every six-character code logs in with that number. */
    method SubmitOtp(code: string) returns (outcome: OtpOutcome)
      requires Valid() && step == OtpStep
      ensures outcome == VerifyOtp(code, phoneData)
      ensures OtpValid(code) ==> outcome == LoggedIn(phoneData.value.phoneNumber, phoneData.value.countryCode)
      ensures !OtpValid(code) ==> outcome == SchemaRejected
    {
      if |code| != 6 {
        outcome := SchemaRejected;
      } else if code == "123456" || |code| == 6 {
        match phoneData {
          case None => outcome := AcceptedWithoutPhone;
          case Some(d) => outcome := LoggedIn(d.phoneNumber, d.countryCode);
        }
      } else {
        outcome := InvalidOtp;
      }
    }
  }

  // ---------------------------------------------------------------------
  // Countries

  /** `country.idd?.root` is truthy: present and not the empty string. */
  predicate HasDialRoot(c: Country) {
    c.idd.Some? && c.idd.value.root.Some? && c.idd.value.root.value != ""
  }

  /** `data.filter(country => country.idd?.root)` */
  function KeepWithDialRoot(cs: seq<Country>): seq<Country> {
    Filter(cs, HasDialRoot)
  }

  /** `idd.root + (idd.suffixes?.[0] || "")`: the option's value always
      starts with the dial root. */
  function DialCode(c: Country): (r: string)
    requires HasDialRoot(c)
    ensures |r| > 0 && |r| >= |c.idd.value.root.value|
    ensures r[..|c.idd.value.root.value|] == c.idd.value.root.value
  {
    var idd := c.idd.value;
    idd.root.value + (if idd.suffixes.Some? && |idd.suffixes.value| > 0 then idd.suffixes.value[0] else "")
  }

  /** The dial code is the root followed by the first suffix, or the root
      alone when there is no suffix. */
  lemma DialCodeCases(c: Country)
    requires HasDialRoot(c)
    ensures var idd := c.idd.value;
      && (idd.suffixes.Some? && |idd.suffixes.value| > 0 ==> DialCode(c) == idd.root.value + idd.suffixes.value[0])
      && (idd.suffixes.None? || idd.suffixes.value == [] ==> DialCode(c) == idd.root.value)
  {
  }

  datatype CountryOption = CountryOption(value: string, labelText: string, flag: string)

  /** `countries.map(…)`: every country becomes an option whose value is its
      dial code and whose label is `name (dialCode)`. */
  function CountryOptions(cs: seq<Country>): (r: seq<CountryOption>)
    requires forall i | 0 <= i < |cs| :: HasDialRoot(cs[i])
    ensures |r| == |cs|
    ensures forall i | 0 <= i < |cs| ::
      && r[i].value == DialCode(cs[i])
      && r[i].labelText == cs[i].name + " (" + r[i].value + ")"
      && r[i].flag == cs[i].flag
  {
    if cs == [] then []
    else [CountryOption(DialCode(cs[0]), cs[0].name + " (" + DialCode(cs[0]) + ")", cs[0].flag)]
         + CountryOptions(cs[1..])
  }

  /** `a.name.common.localeCompare(b.name.common)` is consistent: when it
      puts `a` after `b` it puts `b` before `a`. */
  ghost predicate ConsistentComparator(cmp: (string, string) -> int) {
    forall a, b :: cmp(a, b) > 0 ==> cmp(b, a) < 0
  }

  predicate SortedByName(cs: seq<Country>, cmp: (string, string) -> int) {
    forall i | 0 <= i < |cs| - 1 :: cmp(cs[i].name, cs[i + 1].name) <= 0
  }

  /** Inserts `c` before the first entry it does not sort after. */
  function InsertByName(c: Country, sorted: seq<Country>, cmp: (string, string) -> int): (r: seq<Country>)
    ensures multiset(r) == multiset{c} + multiset(sorted)
    ensures r != [] && (r[0] == c || (sorted != [] && r[0] == sorted[0]))
  {
    if sorted == [] || cmp(c.name, sorted[0].name) <= 0 then [c] + sorted
    else
      assert sorted == [sorted[0]] + sorted[1..];
      [sorted[0]] + InsertByName(c, sorted[1..], cmp)
  }

  /** `.sort((a, b) => a.name.common.localeCompare(b.name.common))`, as a
      stable insertion sort: a permutation of its input. */
  function SortByName(cs: seq<Country>, cmp: (string, string) -> int): (r: seq<Country>)
    ensures multiset(r) == multiset(cs)
  {
    if cs == [] then []
    else
      assert cs == [cs[0]] + cs[1..];
      InsertByName(cs[0], SortByName(cs[1..], cmp), cmp)
  }

  lemma {:induction false} InsertKeepsSorted(c: Country, sorted: seq<Country>, cmp: (string, string) -> int)
    requires ConsistentComparator(cmp) && SortedByName(sorted, cmp)
    ensures SortedByName(InsertByName(c, sorted, cmp), cmp)
    decreases |sorted|
  {
    if sorted != [] && cmp(c.name, sorted[0].name) > 0 {
      var rest := sorted[1..];
      assert SortedByName(rest, cmp) by {
        forall i | 0 <= i < |rest| - 1 ensures cmp(rest[i].name, rest[i + 1].name) <= 0 {
          assert rest[i] == sorted[i + 1] && rest[i + 1] == sorted[i + 2];
        }
      }
      InsertKeepsSorted(c, rest, cmp);
      var tail := InsertByName(c, rest, cmp);
      var r := [sorted[0]] + tail;
      assert cmp(sorted[0].name, c.name) < 0;
      forall i | 0 <= i < |r| - 1 ensures cmp(r[i].name, r[i + 1].name) <= 0 {
        if i > 0 {
          assert r[i] == tail[i - 1] && r[i + 1] == tail[i];
        }
      }
    }
  }

  /** With a consistent comparator the result is in order of name. */
  lemma {:induction false} SortByNameSorted(cs: seq<Country>, cmp: (string, string) -> int)
    requires ConsistentComparator(cmp)
    ensures SortedByName(SortByName(cs, cmp), cmp)
  {
    if cs != [] {
      SortByNameSorted(cs[1..], cmp);
      InsertKeepsSorted(cs[0], SortByName(cs[1..], cmp), cmp);
    }
  }

  /** The list the form starts from: the fetched one, or the bundled one
      when the fetch fails (`None`). */
  function CountrySource(fetched: Option<seq<Country>>): seq<Country> {
    match fetched
    case Some(cs) => cs
    case None => COUNTRY_LIST
  }

  /** The country list the form offers: the source filtered and sorted. It
      holds exactly the source's entries with a dial root, and is in order
      of name when the comparator is consistent. */
  function LoadCountries(fetched: Option<seq<Country>>, cmp: (string, string) -> int): (r: seq<Country>)
    ensures forall i | 0 <= i < |r| :: HasDialRoot(r[i])
    ensures multiset(r) == multiset(KeepWithDialRoot(CountrySource(fetched)))
    ensures ConsistentComparator(cmp) ==> SortedByName(r, cmp)
  {
    var kept := KeepWithDialRoot(CountrySource(fetched));
    SortKeepsRoots(kept, cmp);
    SortByName(kept, cmp)
  }

  /** Sorting a list of countries with dial roots gives one, in order of
      name when the comparator is consistent. */
  lemma SortKeepsRoots(cs: seq<Country>, cmp: (string, string) -> int)
    requires forall i | 0 <= i < |cs| :: HasDialRoot(cs[i])
    ensures forall i | 0 <= i < |SortByName(cs, cmp)| :: HasDialRoot(SortByName(cs, cmp)[i])
    ensures ConsistentComparator(cmp) ==> SortedByName(SortByName(cs, cmp), cmp)
  {
    var r := SortByName(cs, cmp);
    forall i | 0 <= i < |r| ensures HasDialRoot(r[i]) {
      assert r[i] in multiset(cs);
    }
    if ConsistentComparator(cmp) {
      SortByNameSorted(cs, cmp);
    }
  }

  /** The filter keeps exactly the entries with a dial root, in order. */
  lemma KeepWithDialRootSelects(cs: seq<Country>)
    ensures IsSubsequence(KeepWithDialRoot(cs), cs)
    ensures forall i | 0 <= i < |cs| :: HasDialRoot(cs[i]) ==> cs[i] in KeepWithDialRoot(cs)
    ensures forall i | 0 <= i < |KeepWithDialRoot(cs)| :: HasDialRoot(KeepWithDialRoot(cs)[i])
    ensures forall c: Country :: multiset(KeepWithDialRoot(cs))[c] ==
                            if HasDialRoot(c) then multiset(cs)[c] else 0
  {
    forall c: Country ensures multiset(KeepWithDialRoot(cs))[c] ==
                            if HasDialRoot(c) then multiset(cs)[c] else 0
    {
      FilterCounts(cs, HasDialRoot, c);
    }
  }

  /** Every bundled entry has a dial root, so the filter keeps the whole
      bundled list. */
  lemma FallbackHasRoots()
    ensures forall i | 0 <= i < |COUNTRY_LIST| :: HasDialRoot(COUNTRY_LIST[i])
    ensures KeepWithDialRoot(COUNTRY_LIST) == COUNTRY_LIST
  {
    forall i | 0 <= i < |COUNTRY_LIST| ensures HasDialRoot(COUNTRY_LIST[i]) {
      EntryHasRoot(COUNTRY_LIST, i);
    }
  }

  /** A bundled entry's root is one of the ten non-empty dial roots. The
      list is a parameter equal to `COUNTRY_LIST`, rather than the constant
      itself, so that the ten-entry literal is unfolded here, once per
      entry, and not inside the quantified proof of `FallbackHasRoots`. */
  lemma EntryHasRoot(list: seq<Country>, i: int)
    requires list == COUNTRY_LIST && 0 <= i < |list|
    ensures HasDialRoot(list[i])
  {
  }

  /** When the fetch fails, the form offers all ten bundled countries. */
  lemma FallbackKeepsAllTen(cmp: (string, string) -> int)
    ensures |LoadCountries(None, cmp)| == 10
    ensures multiset(LoadCountries(None, cmp)) == multiset(COUNTRY_LIST)
  {
    FallbackHasRoots();
    var r := LoadCountries(None, cmp);
    assert multiset(r) == multiset(COUNTRY_LIST);
    assert |r| == |multiset(r)|;
  }
}
