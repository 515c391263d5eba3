/**
 * `GhlService`: provisioning and removal of GoHighLevel accounts. Every
 * remote call is an input (the answer the GHL API or the mail service
 * gives), and every operation returns the response object together with the
 * trace of calls it made. No operation throws: a remote failure becomes
 * `success: false` with the best available message.
 */
module Provisioning {
  import opened Wrappers
  import opened JsText

  /** An axios error: `error.response?.data?.message` and `error.message`. */
  datatype HttpError = HttpError(responseMessage: Option<string>, message: string)

  /** The answer to one remote call: the response body, or the error it threw. */
  datatype Remote<T> = Answered(data: T) | Failed(error: HttpError)

  /** `POST /locations/` response body. */
  datatype LocationBody = LocationBody(id: Option<string>, locationId: Option<string>)

  /** `POST /users/` response body. */
  datatype UserBody = UserBody(id: Option<string>, userId: Option<string>)

  /** What `sendWelcomeEmail` resolves to; it catches its own errors. */
  datatype EmailResult = EmailResult(success: bool, message: string)

  /** `CreateAccountOptions`; the optional members may be `undefined`. */
  datatype AccountOptions = AccountOptions(
    firstName: string,
    lastName: Option<string>,
    email: string,
    phone: Option<string>,
    businessName: Option<string>)

  /** The configured GHL company and default time zone. */
  datatype Config = Config(companyId: string, timezone: string)

  datatype LocationPayload = LocationPayload(
    name: string, email: Option<string>, phone: Option<string>,
    country: string, timezone: string, companyId: string)

  datatype UserPayload = UserPayload(
    locationIds: seq<string>, companyId: string,
    firstName: Option<string>, lastName: string,
    email: string, password: string, phone: string,
    userType: string, role: string,
    scopes: seq<string>, scopesAssignedToOnly: seq<string>,
    profilePhoto: string, platformLanguage: string)

  /** The remote calls, in the order they are made. */
  datatype Call =
    | PostLocation(location: LocationPayload)
    | PostUser(user: UserPayload)
    | SendWelcome(customerName: string, to: string)
    | DeleteUserCall(userId: string)
    | DeleteLocationCall(locationId: string)

  /** `GhlAccountResponse`: members left `undefined` are `None`. */
  datatype AccountResponse = AccountResponse(
    success: bool,
    id: Option<string>,
    accountId: Option<string>,
    email: Option<string>,
    message: string,
    locationId: Option<string>)

  /** A response and the calls that produced it. */
  datatype Provisioned = Provisioned(response: AccountResponse, calls: seq<Call>)

  const Password := "WiseGave2026!"
  const Country := "US"
  const Scopes := ["contacts.write", "campaigns.readonly"]
  const NoLocationId := "No location ID returned from GHL"

  /** JavaScript truthiness of an optional string. */
  predicate Present(s: Option<string>) {
    s.Some? && s.value != ""
  }

  /** `a || b` on optional strings. */
  function OrElse(a: Option<string>, b: Option<string>): (r: Option<string>)
    ensures Present(a) ==> r == a
    ensures !Present(a) ==> r == b
  {
    if Present(a) then a else b
  }

  /** `error.response?.data?.message || error.message`. */
  function ErrorText(e: HttpError): (m: string)
    ensures Present(e.responseMessage) ==> m == e.responseMessage.value
    ensures !Present(e.responseMessage) ==> m == e.message
  {
    if Present(e.responseMessage) then e.responseMessage.value else e.message
  }

  /** The failure response of the create operations. */
  function CreateFailure(email: Option<string>, message: string): AccountResponse {
    AccountResponse(false, None, None, email, message, None)
  }

  /** The sub-account name: the business name when non-empty, else the person's name trimmed. */
  function AccountName(firstName: string, lastName: string, businessName: Option<string>): (n: string)
    ensures Present(businessName) ==> n == businessName.value
    ensures !Present(businessName) ==> n == Trim(firstName + " " + lastName)
  {
    if Present(businessName) then businessName.value else Trim(firstName + " " + lastName)
  }

  /** The user body `createAccount` and `createUserInLocation` post. */
  function UserRequest(cfg: Config, locationId: string, firstName: Option<string>, lastName: string,
                       email: string, phone: string): UserPayload {
    UserPayload([locationId], cfg.companyId, firstName, lastName, email, Password, phone,
                "account", "admin", Scopes, Scopes, "", "en_US")
  }

  /** The user's first name in `createAccount`: `firstName || businessName`. */
  function CreateAccountFirstName(o: AccountOptions): (r: Option<string>)
    ensures o.firstName != "" ==> r == Some(o.firstName)
    ensures o.firstName == "" ==> r == o.businessName
  {
    if o.firstName != "" then Some(o.firstName) else o.businessName
  }

  /** The user's last name in `createAccount`: `lastName || (businessName ? "" : lastName || "")`. */
  function CreateAccountLastName(o: AccountOptions): (r: string) {
    var lastName := GetOr(o.lastName, "");
    if lastName != "" then lastName
    else if Present(o.businessName) then ""
    else if lastName != "" then lastName else ""
  }

  /** Both branches of the last-name expression yield the defaulted last name. */
  lemma CreateAccountLastNameIsLastName(o: AccountOptions)
    ensures CreateAccountLastName(o) == GetOr(o.lastName, "")
  {
  }

  /**
   * `createAccount(options)`: create the location, take its id, create the
   * admin user in it, send the welcome email. `location`, `user` and `mail`
   * are the answers of the three remote calls.
   */
  function CreateAccount(cfg: Config, o: AccountOptions, location: Remote<Option<LocationBody>>,
                         user: Remote<Option<UserBody>>, mail: EmailResult): (p: Provisioned)
    ensures |p.calls| >= 1
    ensures p.calls[0] == PostLocation(LocationPayload(AccountName(o.firstName, GetOr(o.lastName, ""), o.businessName),
                                                      Some(o.email), Some(GetOr(o.phone, "")),
                                                      Country, cfg.timezone, cfg.companyId))
    ensures p.response.email == Some(o.email)
    ensures location.Failed? ==> p == Provisioned(CreateFailure(Some(o.email), ErrorText(location.error)), p.calls[..1])
    ensures location.Answered? && !Present(LocationIdOf(location.data)) ==>
              p == Provisioned(CreateFailure(Some(o.email), NoLocationId), p.calls[..1])
    ensures p.response.success ==>
              && location.Answered? && Present(LocationIdOf(location.data)) && user.Answered?
              && p.response.id == UserIdOf(user.data) && p.response.accountId == UserIdOf(user.data)
              && p.response.locationId == LocationIdOf(location.data)
              && p.response.message == "Account created successfully"
              && |p.calls| == 3
              && p.calls[1] == PostUser(UserRequest(cfg, LocationIdOf(location.data).value, CreateAccountFirstName(o),
                                                    GetOr(o.lastName, ""), o.email, GetOr(o.phone, "")))
              && p.calls[2] == SendWelcome(Trim(o.firstName + " " + GetOr(o.lastName, "")), o.email)
    ensures !p.response.success ==> p.response.id.None? && p.response.accountId.None? && p.response.locationId.None?
    ensures location.Answered? && Present(LocationIdOf(location.data)) ==> (p.response.success <==> user.Answered?)
    ensures user.Failed? ==> !p.response.success
    ensures location.Answered? && Present(LocationIdOf(location.data)) && user.Failed? ==>
              p == Provisioned(CreateFailure(Some(o.email), ErrorText(user.error)),
                               [p.calls[0], PostUser(UserRequest(cfg, LocationIdOf(location.data).value, CreateAccountFirstName(o),
                                                                 GetOr(o.lastName, ""), o.email, GetOr(o.phone, "")))])
  {
    var lastName := GetOr(o.lastName, "");
    var phone := GetOr(o.phone, "");
    var post := PostLocation(LocationPayload(AccountName(o.firstName, lastName, o.businessName),
                                             Some(o.email), Some(phone), Country, cfg.timezone, cfg.companyId));
    match location
    case Failed(e) => Provisioned(CreateFailure(Some(o.email), ErrorText(e)), [post])
    case Answered(body) =>
      var locationId := LocationIdOf(body);
      if !Present(locationId) then Provisioned(CreateFailure(Some(o.email), NoLocationId), [post])
      else
        var userCall := PostUser(UserRequest(cfg, locationId.value, CreateAccountFirstName(o),
                                             CreateAccountLastName(o), o.email, phone));
        match user
        case Failed(e) => Provisioned(CreateFailure(Some(o.email), ErrorText(e)), [post, userCall])
        case Answered(userBody) =>
          var userId := UserIdOf(userBody);
          var welcome := SendWelcome(Trim(o.firstName + " " + lastName), o.email);
          Provisioned(AccountResponse(true, userId, userId, Some(o.email), "Account created successfully", locationId),
                      [post, userCall, welcome])
  }

  /** `data?.locationId || data?.id`. */
  function LocationIdOf(data: Option<LocationBody>): (r: Option<string>)
    ensures data.None? ==> r.None?
    ensures data.Some? && Present(data.value.locationId) ==> r == data.value.locationId
    ensures data.Some? && !Present(data.value.locationId) ==> r == data.value.id
  {
    if data.None? then None else OrElse(data.value.locationId, data.value.id)
  }

  /** `data?.id || data?.userId`. */
  function UserIdOf(data: Option<UserBody>): (r: Option<string>)
    ensures data.None? ==> r.None?
    ensures data.Some? && Present(data.value.id) ==> r == data.value.id
    ensures data.Some? && !Present(data.value.id) ==> r == data.value.userId
  {
    if data.None? then None else OrElse(data.value.id, data.value.userId)
  }

  /** The welcome email's outcome never changes what `createAccount` returns. */
  lemma EmailOutcomeIsIgnored(cfg: Config, o: AccountOptions, location: Remote<Option<LocationBody>>,
                              user: Remote<Option<UserBody>>, m1: EmailResult, m2: EmailResult)
    ensures CreateAccount(cfg, o, location, user, m1) == CreateAccount(cfg, o, location, user, m2)
  {
  }

  /** A user POST that answers without any id is still a success, with `id` and `accountId` undefined. */
  lemma MissingUserIdStillSucceeds(cfg: Config, o: AccountOptions, location: Remote<Option<LocationBody>>, mail: EmailResult)
    requires location.Answered? && Present(LocationIdOf(location.data))
    ensures var r := CreateAccount(cfg, o, location, Answered(Some(UserBody(None, None))), mail).response;
            r.success && r.id.None? && r.accountId.None?
  {
  }

  // ------------------------------------------------------ names from an order

  /** `customerName.trim().split(" ")` with the first-name and last-name defaults. */
  function OrderNames(customerName: string): (r: (string, string)) {
    var parts := Split(Trim(customerName), ' ');
    (if parts[0] != "" then parts[0] else "User",
     Join(parts[1..], ' '))
  }

  /** `createAccountFromOrder(name, email, phone, businessName)`. */
  function CreateAccountFromOrder(cfg: Config, customerName: string, customerEmail: string,
                                  customerPhone: Option<string>, businessName: Option<string>,
                                  location: Remote<Option<LocationBody>>, user: Remote<Option<UserBody>>,
                                  mail: EmailResult): (p: Provisioned)
    ensures var (first, last) := OrderNames(customerName);
            && p == CreateAccount(cfg, AccountOptions(first, Some(last), customerEmail, customerPhone, businessName),
                                  location, user, mail)
            && ' ' !in first
            && (Trim(customerName) == "" ==> first == "User" && last == "")
            && (Trim(customerName) != "" && last == "" ==> first == Trim(customerName))
            && (Trim(customerName) != "" && last != "" ==> first + " " + last == Trim(customerName))
    ensures p.calls[0].PostLocation? &&
            p.calls[0].location.name == (if Present(businessName) then businessName.value
                                         else if Trim(customerName) == "" then "User"
                                         else Trim(customerName))
  {
    var (first, last) := OrderNames(customerName);
    OrderNamesRejoin(customerName);
    OrderLocationName(customerName, businessName);
    CreateAccount(cfg, AccountOptions(first, Some(last), customerEmail, customerPhone, businessName), location, user, mail)
  }

  /**
   * The first name is the first word of the trimmed name and the last name
   * the rest; put back together with one space they give the trimmed name.
   * A blank name gives `User` and an empty last name.
   */
  lemma {:induction false} OrderNamesRejoin(customerName: string)
    ensures var (first, last) := OrderNames(customerName);
            && ' ' !in first
            && (Trim(customerName) == "" ==> first == "User" && last == "")
            && (Trim(customerName) != "" && last == "" ==> first == Trim(customerName))
            && (Trim(customerName) != "" && last != "" ==> first + " " + last == Trim(customerName))
  {
    var t := Trim(customerName);
    var parts := Split(t, ' ');
    SplitFirstIsPrefix(t, ' ');
    if t != "" {
      if |parts| == 1 {
        assert Join(parts, ' ') == parts[0];
      } else {
        assert Join(parts, ' ') == parts[0] + " " + Join(parts[1..], ' ');
      }
    }
  }

  /** The sub-account created for an order is named by the business, else the trimmed customer name, else `User`. */
  lemma {:induction false} OrderLocationName(customerName: string, businessName: Option<string>)
    ensures var (first, last) := OrderNames(customerName);
            AccountName(first, last, businessName) ==
              (if Present(businessName) then businessName.value
               else if Trim(customerName) == "" then "User"
               else Trim(customerName))
  {
    var (first, last) := OrderNames(customerName);
    if !Present(businessName) {
      if Trim(customerName) == "" {
        OrderNamesRejoin(customerName);
        assert first + " " + last == "User" + " ";
        TrimTrailingSpace("User");
      } else {
        OrderAccountNameIsTrimmedName(customerName, businessName);
      }
    }
  }

  /** A trimmed, non-empty word followed by a space trims back to the word. */
  lemma TrimTrailingSpace(w: string)
    requires w != "" && IsTrimmed(w)
    ensures Trim(w + " ") == w
  {
    var s := w + " ";
    assert TrimStart(s) == s;
    assert TrimEnd(s) == TrimEnd(s[..|s| - 1]);
    assert s[..|s| - 1] == w;
  }

  /** Without a business name, the sub-account created for an order is named exactly the trimmed customer name. */
  lemma {:induction false} OrderAccountNameIsTrimmedName(customerName: string, businessName: Option<string>)
    requires !Present(businessName) && Trim(customerName) != ""
    ensures var (first, last) := OrderNames(customerName);
            AccountName(first, last, businessName) == Trim(customerName)
  {
    var (first, last) := OrderNames(customerName);
    var t := Trim(customerName);
    OrderNamesRejoin(customerName);
    if last == "" {
      assert first + " " + last == first + " ";
      TrimTrailingSpace(first);
    } else {
      assert first + " " + last == t;
    }
  }

  // ---------------------------------------------- the other account operations

  /** The user's first name in `createUserInLocation`: `businessName || firstName`. */
  function LocationUserFirstName(o: AccountOptions): (r: string)
    ensures Present(o.businessName) ==> r == o.businessName.value
    ensures !Present(o.businessName) ==> r == o.firstName
  {
    if Present(o.businessName) then o.businessName.value else o.firstName
  }

  /** The user's last name in `createUserInLocation`: empty whenever a business name is given. */
  function LocationUserLastName(o: AccountOptions): (r: string)
    ensures Present(o.businessName) ==> r == ""
    ensures !Present(o.businessName) ==> r == GetOr(o.lastName, "")
  {
    if Present(o.businessName) then "" else GetOr(o.lastName, "")
  }

  /** `createUserInLocation(locationId, options)`. */
  function CreateUserInLocation(cfg: Config, locationId: string, o: AccountOptions,
                                user: Remote<Option<UserBody>>): (p: Provisioned)
    ensures p.calls == [PostUser(UserRequest(cfg, locationId, Some(LocationUserFirstName(o)),
                                             LocationUserLastName(o), o.email, GetOr(o.phone, "")))]
    ensures p.response.success <==> user.Answered?
    ensures user.Answered? ==> p.response == AccountResponse(true, UserIdOf(user.data), UserIdOf(user.data),
                                                             Some(o.email), "User created successfully", Some(locationId))
    ensures user.Failed? ==> p.response == CreateFailure(Some(o.email), ErrorText(user.error))
  {
    var call := PostUser(UserRequest(cfg, locationId, Some(LocationUserFirstName(o)), LocationUserLastName(o),
                                     o.email, GetOr(o.phone, "")));
    match user
    case Failed(e) => Provisioned(CreateFailure(Some(o.email), ErrorText(e)), [call])
    case Answered(body) =>
      var userId := UserIdOf(body);
      Provisioned(AccountResponse(true, userId, userId, Some(o.email), "User created successfully", Some(locationId)), [call])
  }

  /**
   * The two operations map names differently: with both a first name and a
   * business name, `createAccount` names the user after the person and
   * `createUserInLocation` after the business.
   */
  lemma UserNamesDiffer(o: AccountOptions)
    requires o.firstName != "" && Present(o.businessName) && o.businessName.value != o.firstName
    ensures CreateAccountFirstName(o) == Some(o.firstName)
    ensures LocationUserFirstName(o) == o.businessName.value
    ensures CreateAccountFirstName(o) != Some(LocationUserFirstName(o))
  {
  }

  /** `createLocation(name, email, phone)`: email and phone are sent only when non-empty. */
  function CreateLocation(cfg: Config, name: string, email: Option<string>, phone: Option<string>,
                          location: Remote<Option<LocationBody>>): (p: Provisioned)
    ensures p.calls == [PostLocation(LocationPayload(name, if Present(email) then email else None,
                                                     if Present(phone) then phone else None,
                                                     Country, cfg.timezone, cfg.companyId))]
    ensures p.response.success <==> location.Answered?
    ensures location.Answered? ==>
              p.response.id == LocationIdOf(location.data) && p.response.accountId == LocationIdOf(location.data) &&
              p.response.locationId == LocationIdOf(location.data)
    ensures location.Failed? ==> p.response == CreateFailure(None, ErrorText(location.error))
  {
    var call := PostLocation(LocationPayload(name, if Present(email) then email else None,
                                             if Present(phone) then phone else None,
                                             Country, cfg.timezone, cfg.companyId));
    match location
    case Failed(e) => Provisioned(CreateFailure(None, ErrorText(e)), [call])
    case Answered(body) =>
      var locationId := LocationIdOf(body);
      Provisioned(AccountResponse(true, locationId, locationId, None, "Location created successfully", locationId), [call])
  }

  /**
   * `createAccount` posts the same location `createLocation` would for the
   * account name, when the email and phone are non-empty; when that post
   * fails, both report the same failure, `createAccount` adding the email.
   */
  lemma {:induction false} CreateAccountPostsLocation(cfg: Config, o: AccountOptions, location: Remote<Option<LocationBody>>,
                                                      user: Remote<Option<UserBody>>, mail: EmailResult)
    requires o.email != "" && Present(o.phone)
    ensures var name := AccountName(o.firstName, GetOr(o.lastName, ""), o.businessName);
            var account := CreateAccount(cfg, o, location, user, mail);
            var alone := CreateLocation(cfg, name, Some(o.email), o.phone, location);
            && account.calls[0] == alone.calls[0]
            && (location.Failed? ==> account.calls == alone.calls && account.response == alone.response.(email := Some(o.email)))
  {
  }

  /** `deleteUser(userId)`. */
  function DeleteUser(userId: string, answer: Remote<()>): (p: Provisioned)
    ensures p.calls == [DeleteUserCall(userId)]
    ensures p.response.success <==> answer.Answered?
    ensures answer.Answered? ==> p.response.id == Some(userId)
    ensures answer.Failed? ==> p.response.message == ErrorText(answer.error)
  {
    match answer
    case Answered(_) => Provisioned(AccountResponse(true, Some(userId), None, None, "User deleted successfully", None), [DeleteUserCall(userId)])
    case Failed(e) => Provisioned(AccountResponse(false, None, None, None, ErrorText(e), None), [DeleteUserCall(userId)])
  }

  /** `deleteLocation(locationId)`. */
  function DeleteLocation(locationId: string, answer: Remote<()>): (p: Provisioned)
    ensures p.calls == [DeleteLocationCall(locationId)]
    ensures p.response.success <==> answer.Answered?
    ensures answer.Answered? ==> p.response.id == Some(locationId) && p.response.locationId == Some(locationId)
    ensures answer.Failed? ==> p.response.message == ErrorText(answer.error)
  {
    match answer
    case Answered(_) =>
      Provisioned(AccountResponse(true, Some(locationId), None, None, "Location deleted successfully", Some(locationId)),
                  [DeleteLocationCall(locationId)])
    case Failed(e) => Provisioned(AccountResponse(false, None, None, None, ErrorText(e), None), [DeleteLocationCall(locationId)])
  }

  function Verdict(ok: bool): string { if ok then "OK" else "Failed" }

  /**
   * `deleteAccount(userId, locationId)`: delete the user, then the location,
   * each only when its id is non-empty; the whole succeeds when both did.
   */
  function DeleteAccount(userId: string, locationId: string, userAnswer: Remote<()>, locationAnswer: Remote<()>): (p: Provisioned)
    ensures p.calls == (if userId != "" then [DeleteUserCall(userId)] else []) +
                       (if locationId != "" then [DeleteLocationCall(locationId)] else [])
    ensures p.response.success <==> userId != "" && userAnswer.Answered? && locationId != "" && locationAnswer.Answered?
    ensures p.response.success ==> p.response.message == "Account deleted successfully"
    ensures !p.response.success ==>
              p.response.message == "Partial deletion - User: " + Verdict(userId != "" && userAnswer.Answered?) +
                                    ", Location: " + Verdict(locationId != "" && locationAnswer.Answered?)
    ensures p.response.id == Some(userId) && p.response.locationId == Some(locationId)
  {
    var userPart := if userId != "" then Some(DeleteUser(userId, userAnswer)) else None;
    var locationPart := if locationId != "" then Some(DeleteLocation(locationId, locationAnswer)) else None;
    var userDeleted := userPart.Some? && userPart.value.response.success;
    var locationDeleted := locationPart.Some? && locationPart.value.response.success;
    var success := userDeleted && locationDeleted;
    var message := if success then "Account deleted successfully"
                   else "Partial deletion - User: " + Verdict(userDeleted) + ", Location: " + Verdict(locationDeleted);
    var calls := (if userPart.Some? then userPart.value.calls else []) +
                 (if locationPart.Some? then locationPart.value.calls else []);
    Provisioned(AccountResponse(success, Some(userId), None, None, message, Some(locationId)), calls)
  }

  /** A failed user delete does not stop the location delete: the calls made do not depend on either answer. */
  lemma DeletesAreIndependent(userId: string, locationId: string, u1: Remote<()>, l1: Remote<()>, u2: Remote<()>, l2: Remote<()>)
    ensures DeleteAccount(userId, locationId, u1, l1).calls == DeleteAccount(userId, locationId, u2, l2).calls
  {
  }
}
