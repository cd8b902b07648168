/**
 * The registration wizard: the steps name, phone, passcode and success, the
 * guards that let "continue" advance, the digit-only input filters, and the
 * profile saved under the local-storage key "userProfile".
 */
module Register {
  import opened Basics
  import opened Text
  import LanguageContext

  datatype Step = Name | Phone | Passcode | Success

  /** Position of a step in the wizard. */
  function Rank(s: Step): nat {
    match s
    case Name => 0
    case Phone => 1
    case Passcode => 2
    case Success => 3
  }

  const PhoneLength: nat := 10
  const PasscodeLength: nat := 4

  datatype Profile = Profile(name: string, phone: string, passcode: string)

  /** `raw.replace(/\D/g, '').slice(0, width)`, the filter on the phone and passcode inputs. */
  function DigitField(raw: string, width: nat): (r: string)
    ensures AllDigits(r)
    ensures |r| <= width
    ensures r <= DigitsOf(raw)
    ensures |r| == width || r == DigitsOf(raw)
  {
    Take(DigitsOf(raw), width)
  }

  /** Filtering an already filtered value changes nothing. */
  lemma DigitFieldIdempotent(raw: string, width: nat)
    ensures DigitField(DigitField(raw, width), width) == DigitField(raw, width)
  {
  }

  /** Typing one more character after a full field keeps the field as it was. */
  lemma {:induction false} DigitFieldFullIsStable(raw: string, extra: string, width: nat)
    requires |DigitField(raw, width)| == width
    ensures DigitField(raw + extra, width) == DigitField(raw, width)
  {
    DigitsOfConcat(raw, extra);
    var d := DigitsOf(raw);
    assert |d| >= width;
    assert (d + DigitsOf(extra))[..width] == d[..width];
  }

  /** The phone filter. */
  function PhoneInput(raw: string): (r: string)
    ensures AllDigits(r) && |r| <= PhoneLength && r <= DigitsOf(raw)
    ensures |r| == PhoneLength || r == DigitsOf(raw)
  {
    DigitField(raw, PhoneLength)
  }

  /** The passcode filter. */
  function PasscodeInput(raw: string): (r: string)
    ensures AllDigits(r) && |r| <= PasscodeLength && r <= DigitsOf(raw)
    ensures |r| == PasscodeLength || r == DigitsOf(raw)
  {
    DigitField(raw, PasscodeLength)
  }

  /** The step `handleContinue` moves to, from the step and the three fields. */
  function NextStep(step: Step, name: string, phone: string, passcode: string): (r: Step)
    ensures Rank(r) == Rank(step) || Rank(r) == Rank(step) + 1
    ensures r != step <==>
              (step == Name && Trim(name) != "") ||
              (step == Phone && |phone| == PhoneLength) ||
              (step == Passcode && |passcode| == PasscodeLength)
  {
    if step == Name && Trim(name) != "" then Phone
    else if step == Phone && |phone| == PhoneLength then Passcode
    else if step == Passcode && |passcode| == PasscodeLength then Success
    else step
  }

  /** The translation key of the prompt shown at each step (`getPrompt`). */
  function PromptKey(step: Step): string {
    match step
    case Name => "registration_welcome"
    case Phone => "registration_phone"
    case Passcode => "registration_passcode"
    case Success => "registration_success"
  }

  /** Each step shows its own prompt key. */
  lemma PromptKeysDistinct(a: Step, b: Step)
    ensures PromptKey(a) == PromptKey(b) ==> a == b
  {
  }

  /** The prompt text: the step's key through the translation lookup. */
  function Prompt(tables: LanguageContext.Translations, language: string, step: Step): (r: string)
    ensures r != ""
  {
    LanguageContext.Translate(tables, language, PromptKey(step))
  }

  /** The wizard component's state. */
  class Registration {
    var step: Step
    var name: string
    var phone: string
    var passcode: string
    /** The local-storage entry "userProfile". */
    var savedProfile: Option<Profile>

    /**
     * What holds in every reachable state: the fields hold only what the
     * filters let through, every step past one proves its guard held, and on
     * success the stored profile is exactly the fields.
     */
    ghost predicate Valid()
      reads this
    {
      && AllDigits(phone) && |phone| <= PhoneLength
      && AllDigits(passcode) && |passcode| <= PasscodeLength
      && (Rank(step) >= 1 ==> Trim(name) != "")
      && (Rank(step) >= 2 ==> |phone| == PhoneLength)
      && (step == Success ==>
            |passcode| == PasscodeLength && savedProfile == Some(Profile(name, phone, passcode)))
    }

    /** A fresh wizard; local storage may already hold a profile from an earlier visit. */
    constructor (savedProfile: Option<Profile>)
      ensures Valid()
      ensures step == Name && name == "" && phone == "" && passcode == ""
      ensures this.savedProfile == savedProfile
    {
      step := Name;
      name, phone, passcode := "", "", "";
      this.savedProfile := savedProfile;
    }

    /** The name input's `onChange`; the input is shown only at the name step. */
    method EditName(value: string)
      requires Valid() && step == Name
      modifies this`name
      ensures Valid()
      ensures name == value
    {
      name := value;
    }

    /** The phone input's `onChange`; shown only at the phone step. */
    method EditPhone(value: string)
      requires Valid() && step == Phone
      modifies this`phone
      ensures Valid()
      ensures phone == PhoneInput(value)
    {
      phone := PhoneInput(value);
    }

    /** The passcode input's `onChange`; shown only at the passcode step. */
    method EditPasscode(value: string)
      requires Valid() && step == Passcode
      modifies this`passcode
      ensures Valid()
      ensures passcode == PasscodeInput(value)
    {
      passcode := PasscodeInput(value);
    }

    /**
     * `handleContinue`: advance when the current step's guard holds, saving
     * the untrimmed profile on reaching success; from success, only navigate
     * to the dashboard.
     */
    method Continue() returns (navigate: bool)
      requires Valid()
      modifies this`step, this`savedProfile
      ensures Valid()
      ensures step == NextStep(old(step), name, phone, passcode)
      ensures Rank(step) >= Rank(old(step))
      ensures navigate <==> old(step) == Success
      ensures savedProfile ==
                if old(step) == Passcode && step == Success then Some(Profile(name, phone, passcode))
                else old(savedProfile)
    {
      navigate := false;
      if step == Name && Trim(name) != "" {
        step := Phone;
      } else if step == Phone && |phone| == PhoneLength {
        step := Passcode;
      } else if step == Passcode && |passcode| == PasscodeLength {
        savedProfile := Some(Profile(name, phone, passcode));
        step := Success;
      } else if step == Success {
        navigate := true;
      }
    }
  }

  /** A profile the wizard saves has a 10-digit phone and a 4-digit passcode and a non-blank name. */
  lemma SavedProfileIsComplete(r: Registration)
    requires r.Valid() && r.step == Success
    ensures r.savedProfile.Some?
    ensures AllDigits(r.savedProfile.value.phone) && |r.savedProfile.value.phone| == PhoneLength
    ensures AllDigits(r.savedProfile.value.passcode) && |r.savedProfile.value.passcode| == PasscodeLength
    ensures Trim(r.savedProfile.value.name) != ""
  {
  }
}
