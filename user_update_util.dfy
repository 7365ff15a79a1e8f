/** UserUpdateUtil.updateUser: overwrite name, phone number and email with the request's non-blank values. */
module UserUpdateUtil {
  import opened Wrappers
  import opened Strings
  import opened Entities
  import opened Requests

  /** The profile after the three optional overwrites of the request. */
  function UpdatedProfile(p: Profile, req: UpdateUserRequest): (r: Profile)
    ensures r.name != p.name ==> HasText(req.name)
    ensures r.phoneNumber != p.phoneNumber ==> HasText(req.phoneNumber)
    ensures r.email != p.email ==> HasText(req.email)
  {
    Profile(Overwrite(p.name, req.name), Overwrite(p.phoneNumber, req.phoneNumber), Overwrite(p.email, req.email))
  }

  /** Each field is replaced exactly when the request carries text for it, and then by that text. */
  lemma UpdatedProfileFields(p: Profile, req: UpdateUserRequest)
    ensures UpdatedProfile(p, req).name == (if HasText(req.name) then req.name.value else p.name)
    ensures UpdatedProfile(p, req).phoneNumber == (if HasText(req.phoneNumber) then req.phoneNumber.value else p.phoneNumber)
    ensures UpdatedProfile(p, req).email == (if HasText(req.email) then req.email.value else p.email)
  {
  }

  /** Applying the same request twice gives the profile that applying it once gives. */
  lemma UpdatedProfileIdempotent(p: Profile, req: UpdateUserRequest)
    ensures UpdatedProfile(UpdatedProfile(p, req), req) == UpdatedProfile(p, req)
  {
    OverwriteIdempotent(p.name, req.name);
    OverwriteIdempotent(p.phoneNumber, req.phoneNumber);
    OverwriteIdempotent(p.email, req.email);
  }

  /** A request with no text in any of the three fields changes nothing. */
  lemma EmptyRequestKeepsProfile(p: Profile, req: UpdateUserRequest)
    requires !HasText(req.name) && !HasText(req.phoneNumber) && !HasText(req.email)
    ensures UpdatedProfile(p, req) == p
  {
  }

  /** The setters run field by field on the user; the address, id, username and accounts are left alone. */
  method UpdateUser(req: UpdateUserRequest, user: User)
    modifies user`name, user`phoneNumber, user`email
    ensures user.ProfileValue() == UpdatedProfile(old(user.ProfileValue()), req)
    ensures user.accounts == old(user.accounts)
  {
    if HasText(req.name) {
      user.name := req.name.value;
    }
    if HasText(req.phoneNumber) {
      user.phoneNumber := req.phoneNumber.value;
    }
    if HasText(req.email) {
      user.email := req.email.value;
    }
  }
}
