/** Package `chapter6`: the user-registration service, with its fail-fast and
    collect-all validation, and the user whose password can be "changed". */
module Chapter6 {
  import opened Java

  /** `JoinRequest` (its class is not part of this model): the four fields
      the service reads through getters, each possibly null. */
  datatype JoinRequest = JoinRequest(
    id: Option<string>,
    name: Option<string>,
    password: Option<string>,
    email: Option<string>)

  /** `ValidationError`: a message and a type tag (`type` is a keyword in
      Dafny, hence `kind`). */
  datatype ValidationError = ValidationError(message: string, kind: string)

  /** The exceptions `join` and `joinUsingValidator` throw. */
  datatype JoinException =
    | EmptyPropertyException(propertyName: string)
    | DuplicateIdException(message: string)
    | ValidationErrorException(errors: seq<ValidationError>)

  const ExistEmailData: string := "1234@naver.com"
  const DuplicateIdMessage: string := "동일한 아이디가 존재합니다."

  const IdMissing: ValidationError := ValidationError("아이디 없음", "empty")
  const PasswordMissing: ValidationError := ValidationError("비밀번호 없음", "empty")
  const NameMissing: ValidationError := ValidationError("이메일 없음", "empty")
  const DuplicateIdExists: ValidationError := ValidationError("동일한id 존재", "duplidexist")

  /** The stubbed count of users that already have the requested id. */
  const DuplicateIdCount: int := 1

  /** `isEmpty` of `User` and the test in `checkEmpty`: null or "". */
  predicate IsEmpty(s: Option<string>)
  {
    s == None || s == Some("")
  }

  // ---------------------------------------------------------------- User

  /** `User`: no shown code ever assigns `password`. */
  class User {
    var password: Option<string>

    constructor ()
      ensures password == None
    {
      password := None;
    }

    /** `matchPassword`: `password.equals(oldPw)`, which dereferences the
        stored password; `equals(null)` is false. */
    function MatchPassword(oldPw: Option<string>): (r: Result<bool, Exception>)
      reads this
      ensures r.Failure? <==> password == None
      ensures r.Failure? ==> r.error == NullPointerException
      ensures r.Success? ==> (r.value <==> oldPw == password)
    {
      match password
      case None => Failure(NullPointerException)
      case Some(stored) => Success(oldPw == Some(stored))
    }

    /** `setPassword`: rejects a null or empty password and otherwise
        returns; it stores nothing (the method may modify nothing). */
    method SetPassword(newPw: Option<string>) returns (r: Outcome<Exception>)
      ensures r.Fail? <==> newPw == None || newPw == Some("")
      ensures r.Fail? ==> r.error == PlainException
    {
      if IsEmpty(newPw) {
        return Fail(PlainException);
      }
      return Pass;
    }

    /** `changePassword`: the old password is checked before the new one, and
        the stored password never changes. */
    method ChangePassword(oldPw: Option<string>, newPw: Option<string>) returns (r: Outcome<Exception>)
      ensures password == None ==> r == Fail(NullPointerException)
      ensures password != None && oldPw != password ==> r == Fail(PlainException)
      ensures password != None && oldPw == password && IsEmpty(newPw) ==> r == Fail(PlainException)
      ensures r.Pass? <==> password != None && oldPw == password && !IsEmpty(newPw)
    {
      var matched := MatchPassword(oldPw);
      if matched.Failure? {
        return Fail(matched.error);
      }
      if !matched.value {
        return Fail(PlainException);
      }
      r := SetPassword(newPw);
    }
  }

  // ---------------------------------------------------------------- JoinService

  /** `checkExistMember`: throws when the request's email is the one known
      email; a null email is not equal to it. */
  function CheckExistMember(existEmailData: string, joinRequest: JoinRequest): (r: Outcome<Exception>)
    ensures r.Fail? <==> joinRequest.email == Some(existEmailData)
    ensures r.Fail? ==> r.error == PlainException
  {
    if Some(existEmailData) == joinRequest.email then Fail(PlainException) else Pass
  }

  /** `createUser`: rejects the known email, otherwise saves and returns a
      new `User` (whose password is unset). */
  method CreateUser(joinRequest: JoinRequest) returns (r: Result<User, Exception>)
    ensures r.Failure? <==> joinRequest.email == Some(ExistEmailData)
    ensures r.Failure? ==> r.error == PlainException
    ensures r.Success? ==> fresh(r.value) && r.value.password == None
  {
    var checked := CheckExistMember(ExistEmailData, joinRequest);
    if checked.Fail? {
      return Failure(checked.error);
    }
    var user := Save(joinRequest);
    return Success(user);
  }

  /** `save`: a new `User`; nothing from the request is stored. */
  method Save(joinRequest: JoinRequest) returns (user: User)
    ensures fresh(user) && user.password == None
  {
    user := new User();
  }

  /** `checkEmpty`: throws naming the property when the value is null or "". */
  function CheckEmpty(value: Option<string>, propertyName: string): (r: Outcome<JoinException>)
    ensures r.Fail? <==> value == None || value == Some("")
    ensures r.Fail? ==> r.error == EmptyPropertyException(propertyName)
  {
    if IsEmpty(value) then Fail(EmptyPropertyException(propertyName)) else Pass
  }

  /** `checkDuplicateId`: with the stubbed count it always throws. */
  function CheckDuplicateId(id: Option<string>): (r: Outcome<JoinException>)
    ensures r == Fail(DuplicateIdException(DuplicateIdMessage))
  {
    if DuplicateIdCount > 0 then Fail(DuplicateIdException(DuplicateIdMessage)) else Pass
  }

  /** `join`: fail-fast checks of id, name and password, in that order, then
      the duplicate-id check; it never returns normally. */
  function Join(joinRequest: JoinRequest): (r: Outcome<JoinException>)
    ensures r.Fail?
    ensures r.error == EmptyPropertyException("id") <==> IsEmpty(joinRequest.id)
    ensures r.error == EmptyPropertyException("name") <==>
              !IsEmpty(joinRequest.id) && IsEmpty(joinRequest.name)
    ensures r.error == EmptyPropertyException("password") <==>
              !IsEmpty(joinRequest.id) && !IsEmpty(joinRequest.name) && IsEmpty(joinRequest.password)
    ensures r.error == DuplicateIdException(DuplicateIdMessage) <==>
              !IsEmpty(joinRequest.id) && !IsEmpty(joinRequest.name) && !IsEmpty(joinRequest.password)
  {
    var id := CheckEmpty(joinRequest.id, "id");
    if id.Fail? then id else
    var name := CheckEmpty(joinRequest.name, "name");
    if name.Fail? then name else
    var password := CheckEmpty(joinRequest.password, "password");
    if password.Fail? then password else
    CheckDuplicateId(joinRequest.id)
  }

  /** `isDuplicateIdExist`: with the stubbed count it always holds. */
  predicate IsDuplicateIdExist(id: Option<string>)
  {
    DuplicateIdCount > 0
  }

  /** The number of the request's fields the validator finds missing. */
  function NullCount(joinRequest: JoinRequest): nat
  {
    (if joinRequest.id == None then 1 else 0)
    + (if joinRequest.password == None then 1 else 0)
    + (if joinRequest.name == None then 1 else 0)
  }

  /** The position of each validation error in the validator's fixed order. */
  function Rank(e: ValidationError): nat
  {
    if e == IdMissing then 0
    else if e == PasswordMissing then 1
    else if e == NameMissing then 2
    else if e == DuplicateIdExists then 3
    else 4
  }

  /** `joinUsingValidator`: collects an error for each null id, password and
      name (only null: "" passes), and one for the duplicate id, in that
      order; since the duplicate check always fires, it always throws. */
  method JoinUsingValidator(joinRequest: JoinRequest) returns (r: Outcome<JoinException>)
    ensures r.Fail? && r.error.ValidationErrorException?
    ensures var errors := r.error.errors;
            && (IdMissing in errors <==> joinRequest.id == None)
            && (PasswordMissing in errors <==> joinRequest.password == None)
            && (NameMissing in errors <==> joinRequest.name == None)
            && |errors| == 1 + NullCount(joinRequest)
            && errors[|errors| - 1] == DuplicateIdExists
            && (forall i, j :: 0 <= i < j < |errors| ==> Rank(errors[i]) < Rank(errors[j]))
  {
    var errors: seq<ValidationError> := [];
    if joinRequest.id == None {
      errors := errors + [IdMissing];
    }
    if joinRequest.password == None {
      errors := errors + [PasswordMissing];
    }
    if joinRequest.name == None {
      errors := errors + [NameMissing];
    }
    if IsDuplicateIdExist(joinRequest.id) {
      errors := errors + [DuplicateIdExists];
    }
    if errors != [] {
      return Fail(ValidationErrorException(errors));
    }
    return Pass;
  }

  // ---------------------------------------------------------------- Scenarios

  /** `join` rejects an empty-string id, while `joinUsingValidator` lets it
      through and reports only the duplicate id. */
  method EmptyStringScenario()
  {
    var request := JoinRequest(Some(""), Some("name"), Some("pw"), None);
    assert Join(request) == Fail(EmptyPropertyException("id"));
    var r := JoinUsingValidator(request);
    assert r.error.errors == [DuplicateIdExists];
  }

  /** A user returned by `createUser` has no password, so every attempt to
      change it fails, even with a non-empty new password. */
  method ChangePasswordScenario()
  {
    var created := CreateUser(JoinRequest(Some("id"), Some("name"), Some("pw"), Some("a@b.c")));
    var user := created.value;
    var changed := user.ChangePassword(Some("pw"), Some("new"));
    assert changed == Fail(NullPointerException);
    assert user.password == None;
  }
}
