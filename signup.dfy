/** The sign-up page of src/app/signup/page.tsx: the form state, the
    ordered validation of handleSignUp, the registration payload, and the
    time-of-day greeting. */
module SignUp {
  import opened Js
  import opened Http

  const FILL_ALL: string := "Please fill in all fields."
  const MISMATCH: string := "Passwords do not match."
  const TOO_SHORT: string := "Password must be at least 10 characters long."
  const REGISTRATION_FAILED: string := "Registration failed. Please try again."
  const MIN_PASSWORD: nat := 10

  /** The text fields of the form. */
  datatype Field = FullName | Phone | Email | Password | ConfirmPassword | Location

  /** `s.length` in JavaScript: UTF-16 code units, so a character outside
      the Basic Multilingual Plane counts twice. */
  function Utf16Length(s: string): (n: nat)
    ensures |s| <= n <= 2 * |s|
    ensures s == [] ==> n == 0
  {
    if s == [] then 0 else (if s[0] as int > 0xFFFF then 2 else 1) + Utf16Length(s[1..])
  }

  /** A string of Basic Multilingual Plane characters is as long in code
      units as in characters. */
  lemma {:induction false} BmpLength(s: string)
    requires forall i :: 0 <= i < |s| ==> s[i] as int <= 0xFFFF
    ensures Utf16Length(s) == |s|
    decreases |s|
  {
    if s != [] {
      BmpLength(s[1..]);
    }
  }

  /** Characters outside the Basic Multilingual Plane count twice. */
  lemma {:induction false} AstralLength(s: string)
    requires forall i :: 0 <= i < |s| ==> s[i] as int > 0xFFFF
    ensures Utf16Length(s) == 2 * |s|
    decreases |s|
  {
    if s != [] {
      AstralLength(s[1..]);
    }
  }

  /** The guards of handleSignUp, in order: every field filled in, the two
      passwords equal, the password at least ten characters. The first that
      fails gives the error shown. */
  function Validate(fullName: string, phone: string, email: string, location: string,
                    password: string, confirmPassword: string): (r: Option<string>)
    ensures r == Some(FILL_ALL) <==>
      fullName == "" || phone == "" || email == "" || location == "" || password == "" || confirmPassword == ""
    ensures r == Some(MISMATCH) <==>
      fullName != "" && phone != "" && email != "" && location != "" && password != "" && confirmPassword != "" &&
      password != confirmPassword
    ensures r == Some(TOO_SHORT) <==>
      fullName != "" && phone != "" && email != "" && location != "" && password != "" && confirmPassword != "" &&
      password == confirmPassword && Utf16Length(password) < MIN_PASSWORD
    ensures r.None? <==>
      fullName != "" && phone != "" && email != "" && location != "" &&
      password == confirmPassword && Utf16Length(password) >= MIN_PASSWORD
  {
    if fullName == "" || phone == "" || email == "" || location == "" || password == "" || confirmPassword == "" then Some(FILL_ALL)
    else if password != confirmPassword then Some(MISMATCH)
    else if Utf16Length(password) < MIN_PASSWORD then Some(TOO_SHORT)
    else None
  }

  /** A password of exactly ten code units passes the length guard, and one
      of nine does not: the bound is inclusive. */
  lemma LengthBoundIsInclusive(fullName: string, phone: string, email: string, location: string, password: string)
    requires fullName != "" && phone != "" && email != "" && location != ""
    ensures Utf16Length(password) == MIN_PASSWORD ==> Validate(fullName, phone, email, location, password, password).None?
    ensures Utf16Length(password) == MIN_PASSWORD - 1 ==> Validate(fullName, phone, email, location, password, password) == Some(TOO_SHORT)
  {
  }

  /** Five characters outside the Basic Multilingual Plane are ten code
      units, and so pass the length guard. */
  lemma AstralPasswordPasses(fullName: string, phone: string, email: string, location: string, password: string)
    requires fullName != "" && phone != "" && email != "" && location != ""
    requires |password| == 5 && forall i :: 0 <= i < |password| ==> password[i] as int > 0xFFFF
    ensures Validate(fullName, phone, email, location, password, password).None?
  {
    AstralLength(password);
  }

  /** The object handed to register. */
  datatype RegisterData = RegisterData(
    name: string, email: string, phoneNumber: string, password: string,
    location: string, priceRangeMin: int, priceRangeMax: int)

  function RegisterRequest(data: RegisterData): Request {
    Request(POST, "/auth/register", Obj(map[
      "name" := Str(data.name),
      "email" := Str(data.email),
      "phoneNumber" := Str(data.phoneNumber),
      "password" := Str(data.password),
      "location" := Str(data.location),
      "priceRangeMin" := Num(data.priceRangeMin),
      "priceRangeMax" := Num(data.priceRangeMax)]))
  }

  /** The error shown when register fails: the backend's message, else the
      generic one. */
  function RegisterError(e: HttpError): (r: string)
    ensures r != ""
    ensures e.message != "" ==> r == e.message
    ensures e.message == "" ==> r == REGISTRATION_FAILED
  {
    OrElse(e.message, REGISTRATION_FAILED)
  }

  /** The greeting for the local hour of day. */
  function Greeting(hour: int): (r: string)
    ensures r == "Good morning!" <==> hour < 12
    ensures r == "Good afternoon!" <==> 12 <= hour < 18
    ensures r == "Good evening!" <==> hour >= 18
  {
    if hour < 12 then "Good morning!"
    else if hour < 18 then "Good afternoon!"
    else "Good evening!"
  }

  class SignUpForm {
    var fullName: string
    var phone: string
    var email: string
    var password: string
    var confirmPassword: string
    var location: string
    var priceRangeMin: int
    var priceRangeMax: int
    var error: string
    var isLoading: bool
    var isSuccess: bool
    /** The registrations sent, in order. */
    var sent: seq<RegisterData>

    constructor()
      ensures fullName == "" && phone == "" && email == "" && password == "" && confirmPassword == "" && location == ""
      ensures priceRangeMin == 50 && priceRangeMax == 200
      ensures error == "" && !isLoading && !isSuccess && sent == []
    {
      fullName, phone, email, password, confirmPassword, location := "", "", "", "", "", "";
      priceRangeMin, priceRangeMax := 50, 200;
      error := "";
      isLoading, isSuccess := false, false;
      sent := [];
    }

    function Value(f: Field): string
      reads this
    {
      match f
      case FullName => fullName
      case Phone => phone
      case Email => email
      case Password => password
      case ConfirmPassword => confirmPassword
      case Location => location
    }

    /** Typing into a field: the field takes the value, and a change to any
        of the six clears a shown error. */
    method Edit(f: Field, value: string)
      modifies this
      ensures Value(f) == value
      ensures forall g :: g != f ==> Value(g) == old(Value(g))
      ensures error == if old(Value(f)) != value then "" else old(error)
      ensures priceRangeMin == old(priceRangeMin) && priceRangeMax == old(priceRangeMax)
      ensures isLoading == old(isLoading) && isSuccess == old(isSuccess) && sent == old(sent)
    {
      var changed := Value(f) != value;
      match f {
        case FullName => fullName := value;
        case Phone => phone := value;
        case Email => email := value;
        case Password => password := value;
        case ConfirmPassword => confirmPassword := value;
        case Location => location := value;
      }
      if changed {
        error := "";
      }
    }

    /** The payload built from the current form. */
    /** A price input's change: `Number(e.target.value)`, so an emptied
        input gives 0. The effect that clears a shown error watches only the
        six text fields, so the error stays. A number input holds either
        nothing or a numeral. */
    method EditPrice(isMin: bool, value: string)
      requires ToNumber(value).Finite?
      modifies this
      ensures (if isMin then priceRangeMin else priceRangeMax) == ToNumber(value).n
      ensures value == "" ==> (if isMin then priceRangeMin else priceRangeMax) == 0
      ensures isMin ==> priceRangeMax == old(priceRangeMax)
      ensures !isMin ==> priceRangeMin == old(priceRangeMin)
      ensures forall f :: Value(f) == old(Value(f))
      ensures error == old(error) && isLoading == old(isLoading) && isSuccess == old(isSuccess) && sent == old(sent)
    {
      if isMin {
        priceRangeMin := ToNumber(value).n;
      } else {
        priceRangeMax := ToNumber(value).n;
      }
    }

    function Payload(): RegisterData
      reads this
    {
      RegisterData(fullName, email, phone, password, location, priceRangeMin, priceRangeMax)
    }

    /** handleSignUp: clear the error and start loading; on the first failed
        guard show its message, stop loading and send nothing; otherwise
        send the registration, mark success or show the failure, and stop
        loading. */
    method HandleSignUp(response: Response<JsValue>)
      modifies this
      ensures !isLoading
      ensures var v := old(Validate(fullName, phone, email, location, password, confirmPassword));
        v.Some? ==> error == v.value && sent == old(sent) && isSuccess == old(isSuccess)
      ensures var v := old(Validate(fullName, phone, email, location, password, confirmPassword));
        v.None? ==> sent == old(sent) + [old(Payload())]
      ensures var v := old(Validate(fullName, phone, email, location, password, confirmPassword));
        v.None? && response.Answer? ==> isSuccess && error == ""
      ensures var v := old(Validate(fullName, phone, email, location, password, confirmPassword));
        v.None? && response.Failure? ==> error == RegisterError(response.err) && isSuccess == old(isSuccess)
      ensures Payload() == old(Payload()) && confirmPassword == old(confirmPassword)
    {
      error := "";
      isLoading := true;
      var invalid := Validate(fullName, phone, email, location, password, confirmPassword);
      if invalid.Some? {
        error := invalid.value;
        isLoading := false;
        return;
      }
      sent := sent + [Payload()];
      if response.Answer? {
        isSuccess := true;
      } else {
        error := RegisterError(response.err);
      }
      isLoading := false;
    }
  }

  /** The payload carries the form under register's names: the full name
      as name and the phone as phoneNumber, the rest unchanged. */
  lemma PayloadRenames(fullName: string, phone: string, email: string, password: string, location: string, lo: int, hi: int)
    ensures var body := RegisterRequest(RegisterData(fullName, email, phone, password, location, lo, hi)).body;
      body.Obj? && body.fields.Keys == {"name", "email", "phoneNumber", "password", "location", "priceRangeMin", "priceRangeMax"} &&
      body.fields["name"] == Str(fullName) && body.fields["phoneNumber"] == Str(phone) &&
      body.fields["priceRangeMin"] == Num(lo) && body.fields["priceRangeMax"] == Num(hi)
  {
  }
}
